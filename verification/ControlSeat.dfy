/** Steps of a seat thread keep the protocol invariant. */
module ControlSeat {
  import opened Cards
  import opened GameModel
  import opened Conduct
  import opened Client
  import opened Protocol
  import opened Control

  // ---- The turn token within a script ---------------------------------------------------------------

  lemma CardPlayIn(round: Round, from: nat, to: nat)
    requires from <= to <= |Script(round)|
    ensures CardPlay in Script(round)[from..to] <==> (round == First || round == Later) && from <= PlayAt(round) < to
  {
    var s := Script(round);
    assert forall k | 0 <= k < |s| :: s[k] == CardPlay <==> (round == First || round == Later) && k == PlayAt(round);
    if from <= PlayAt(round) < to {
      assert s[from..to][PlayAt(round) - from] == s[PlayAt(round)];
    }
  }

  lemma IndexIs(round: Round, k: nat)
    requires k < |Script(round)|
    ensures IndexOf(round, Script(round)[k]) == k
  {
  }

  /** What an awaited thread can look like. */
  lemma Destined(m: Main, g: Game, t: Thread, s: Seat)
    requires ThreadOk(m, g, t, s) && MainOk(m, g) && t.destined
    ensures Awaited(m, s) && CardPlay !in Queue(t) && Played !in t.outbox
    ensures Acted(m, t, s) == PlayAt(m.round) + 1 && t.current == g.trickNumber && t.outbox == []
  {
    var i := m.pc.i;
    PlaceMod(m.beginning, i);
    CardPlayIn(m.round, Acted(m, t, s), Sent(m, s));
  }

  // ---- The stepping thread -------------------------------------------------------------------------

  /** Acting on a token moves it from the queue to the acted part. */
  lemma ActsOn(m: Main, g: Game, t: Thread, s: Seat)
    requires ThreadOk(m, g, t, s) && t.pc.Handle?
    ensures Acted(m, t, s) < |Script(m.round)| && t.pc.token == Script(m.round)[Acted(m, t, s)]
    ensures Acted(m, t, s) == IndexOf(m.round, t.pc.token)
    ensures t.inbox == Script(m.round)[Acted(m, t, s) + 1..Sent(m, s)]
    ensures CardPlay in t.inbox <==> InTrick(m) && Acted(m, t, s) < PlayAt(m.round) < Sent(m, s)
    ensures CardPlay in Queue(t) <==> InTrick(m) && Acted(m, t, s) <= PlayAt(m.round) < Sent(m, s)
  {
    var a, n := Acted(m, t, s), Sent(m, s);
    assert Queue(t)[0] == t.pc.token && Queue(t)[1..] == t.inbox;
    IndexIs(m.round, a);
    CardPlayIn(m.round, a, n);
    CardPlayIn(m.round, a + 1, n);
  }

  lemma HandleQueue(m: Main, g: Game, t: Thread, s: Seat, u: Thread)
    requires MainOk(m, g) && ThreadOk(m, g, t, s) && t.pc.Handle?
    requires u.inbox == t.inbox && !u.pc.Handle?
    ensures InOrder(m, u, s) && Acted(m, u, s) == Acted(m, t, s) + 1
    ensures (t.pc.token == BarrierAsk <==> HasArrived(m, u, s)) && !HasArrived(m, t, s)
  {
    ActsOn(m, g, t, s);
    assert Queue(u) == t.inbox;
    hide MainOk;
  }

  lemma HandleStep(g: Game, ongoing: bool, occupied: int, t: Thread, s: Seat)
    requires |g.hands| == 4 && t.pc.Handle?
    ensures var u := ThreadNext(g, ongoing, occupied, s, t, Go);
            && u.inbox == t.inbox && u.outbox == t.outbox
            && (u.pc.Top? || u.pc.DrainEnd? || (u.pc.Wake? && t.pc.token == BarrierAsk && occupied + 1 == 4))
            && (if t.pc.token == CardPlay then u.destined && u.current == g.trickNumber
                else u.destined == t.destined && u.current == t.current)
            && u.barrier == (t.pc.token == BarrierAsk || (t.pc.token != BarrierEnd && t.barrier))
  {
  }

  lemma HandleKeep(m: Main, g: Game, t: Thread, s: Seat, u: Thread)
    requires MainOk(m, g) && ThreadOk(m, g, t, s) && t.pc.Handle?
    requires u.inbox == t.inbox && u.outbox == t.outbox
    requires u.pc.Top? || u.pc.DrainEnd? || (u.pc.Wake? && t.pc.token == BarrierAsk && InBarrier(m) && t.outbox == [])
    requires if t.pc.token == CardPlay then u.destined && u.current == g.trickNumber
             else u.destined == t.destined && u.current == t.current
    requires u.barrier == (t.pc.token == BarrierAsk || (t.pc.token != BarrierEnd && t.barrier))
    requires t.pc.token == BarrierAsk ==> InBarrier(m)
    ensures ThreadOk(m, g, u, s)
  {
    ActsOn(m, g, t, s);
    HandleQueue(m, g, t, s, u);
    assert Queue(u) == t.inbox;
    hide MainOk, InOrder, Sent, Script, InBarrier, HasArrived, Awaited;
  }

  lemma LocalKeep(m: Main, g: Game, t: Thread, s: Seat, u: Thread)
    requires ThreadOk(m, g, t, s) && Queue(u) == Queue(t) && u.outbox == t.outbox && u.destined == t.destined
    requires u.pc.Notify? || u.pc.Repeat? ==> u.destined
    requires ToServeIn(u) ==> u.inbox != []
    requires u.current == t.current || u.current == g.trickNumber
    requires !u.pc.Wake? && (u.barrier ==> t.barrier || InBarrier(m))
    ensures ThreadOk(m, g, u, s)
  {
    hide Sent, Script, InBarrier, PlayAt, Awaited;
  }

  /** Every other step leaves the queue alone. */
  lemma LocalStep(g: Game, ongoing: bool, occupied: int, t: Thread, s: Seat, choice: Choice)
    requires |g.hands| == 4 && (ToServeIn(t) ==> t.inbox != [])
    requires ThreadEnabled(t, choice) && !t.pc.Handle? && !t.pc.Notify? && !t.pc.Wake?
    ensures var u := ThreadNext(g, ongoing, occupied, s, t, choice);
            && Queue(u) == Queue(t) && u.outbox == t.outbox && u.destined == t.destined
            && (u.pc.Notify? <==> TakesCard(g, s, t)) && (u.pc.Repeat? ==> t.destined) && !u.pc.Wake?
            && (ToServeIn(u) ==> u.inbox != []) && (u.current == t.current || u.current == g.trickNumber)
            && (u.barrier ==> t.barrier || ongoing)
  {
    StepQueue(g, ongoing, occupied, t, s, choice);
    StepPlace(g, ongoing, occupied, t, s, choice);
    hide ThreadNext, Takes, Queue;
  }

  lemma StepQueue(g: Game, ongoing: bool, occupied: int, t: Thread, s: Seat, choice: Choice)
    requires |g.hands| == 4 && ThreadEnabled(t, choice) && !t.pc.Handle? && !t.pc.Notify? && !t.pc.Wake?
    ensures var u := ThreadNext(g, ongoing, occupied, s, t, choice);
            Queue(u) == Queue(t) && u.outbox == t.outbox && u.destined == t.destined
  {
    hide Takes;
    if t.inbox != [] {
      assert t.inbox == [t.inbox[0]] + t.inbox[1..];
    }
  }

  lemma StepPlace(g: Game, ongoing: bool, occupied: int, t: Thread, s: Seat, choice: Choice)
    requires |g.hands| == 4 && (ToServeIn(t) ==> t.inbox != [])
    requires ThreadEnabled(t, choice) && !t.pc.Handle? && !t.pc.Notify? && !t.pc.Wake?
    ensures var u := ThreadNext(g, ongoing, occupied, s, t, choice);
            && (u.pc.Notify? <==> TakesCard(g, s, t)) && (u.pc.Repeat? ==> t.destined) && !u.pc.Wake?
            && (ToServeIn(u) ==> u.inbox != []) && (u.current == t.current || u.current == g.trickNumber)
            && (u.barrier ==> t.barrier || ongoing)
  {
    hide Takes;
  }

  lemma LocalOk(m: Main, g: Game, ongoing: bool, occupied: int, t: Thread, s: Seat, choice: Choice)
    requires |g.hands| == 4 && ThreadOk(m, g, t, s) && (ongoing ==> InBarrier(m))
    requires ThreadEnabled(t, choice) && !t.pc.Handle? && !t.pc.Notify? && !t.pc.Wake?
    ensures var u := ThreadNext(g, ongoing, occupied, s, t, choice);
            && ThreadOk(m, g, u, s) && Queue(u) == Queue(t) && u.outbox == t.outbox && !u.pc.Wake?
            && (u.pc.Notify? <==> TakesCard(g, s, t)) && u.destined == t.destined
  {
    assert ToServeIn(t) ==> t.inbox != [];
    hide ThreadOk, ThreadNext, Queue, Takes;
    LocalStep(g, ongoing, occupied, t, s, choice);
    LocalKeep(m, g, t, s, ThreadNext(g, ongoing, occupied, s, t, choice));
  }

  lemma NotifyOk(m: Main, g: Game, ongoing: bool, occupied: int, t: Thread, s: Seat)
    requires |g.hands| == 4 && MainOk(m, g) && ThreadOk(m, g, t, s) && t.pc.Notify?
    ensures var u := ThreadNext(g, ongoing, occupied, s, t, Go);
            ThreadOk(m, g, u, s) && Queue(u) == Queue(t) && u.outbox == [Played] && t.outbox == []
  {
    Destined(m, g, t, s);
    hide Sent, Script, PlayAt, InBarrier, MainOk;
  }

  lemma WakeOk(m: Main, g: Game, ongoing: bool, occupied: int, t: Thread, s: Seat)
    requires |g.hands| == 4 && MainOk(m, g) && ThreadOk(m, g, t, s) && t.pc.Wake? && t.outbox == []
    ensures var u := ThreadNext(g, ongoing, occupied, s, t, Go);
            ThreadOk(m, g, u, s) && Queue(u) == Queue(t) && u.outbox == [Arrived]
  {
    hide Sent, Script, PlayAt, InBarrier, MainOk;
  }

  // ---- The step within the whole state -----------------------------------------------------------

  lemma ThreadOf(st: State, s: Seat)
    requires Inv(st)
    ensures Typed(st) && ThreadOk(st.main, st.g, st.threads[s], s)
  {
  }

  lemma PartsOf(st: State)
    requires Inv(st)
    ensures Typed(st) && FileOk(st.g.file) && Valid(st.g) && MainOk(st.main, st.g) && TableOk(st) && BarrierOk(st)
  {
    hide Valid, FileOk, MainOk, TableOk, BarrierOk, ThreadOk;
  }

  lemma OngoingOf(st: State)
    requires Inv(st)
    ensures st.ongoing <==> InBarrier(st.main)
  {
    hide Valid, FileOk, MainOk, TableOk, ThreadOk, InBarrier;
  }

  lemma InvFromParts(st: State)
    requires Typed(st) && FileOk(st.g.file) && Valid(st.g) && MainOk(st.main, st.g) && TableOk(st) && BarrierOk(st)
    requires forall s: Seat :: ThreadOk(st.main, st.g, st.threads[s], s)
    ensures Inv(st)
  {
    hide Valid, FileOk, MainOk, TableOk, BarrierOk, ThreadOk;
  }

  /** A card is taken up only from the seat in turn, and as a legal play of the sequential game. */
  lemma TakenCardIsMove(st: State, s: Seat)
    requires Inv(st) && TakesCard(st.g, s, st.threads[s])
    ensures Awaited(st.main, s) && |st.g.table| == st.main.pc.i && s == Turn(st.g)
    ensures Enabled(st.g, Play(st.threads[s].pc.m.card))
    ensures st.threads[s].pc.m.number == st.g.trickNumber && st.threads[s].outbox == []
  {
    hide Valid, FileOk, BarrierOk, Inv;
    PartsOf(st);
    ThreadOf(st, s);
    Destined(st.main, st.g, st.threads[s], s);
    hide ThreadOk, Legal;
  }

  lemma OthersKeep(m: Main, g: Game, g': Game, t: Thread, s: Seat)
    requires ThreadOk(m, g, t, s) && g'.trickNumber == g.trickNumber
    ensures ThreadOk(m, g', t, s)
  {
    hide InOrder, Sent, Script, InBarrier;
  }

  lemma ArrivedMeansSent(m: Main, g: Game, t: Thread, s: Seat)
    requires MainOk(m, g) && ThreadOk(m, g, t, s)
    ensures HasArrived(m, t, s) ==> Sent(m, s) == |Script(m.round)| && InBarrier(m)
    ensures m.pc.Tell? && m.pc.token == BarrierAsk && m.pc.to <= s ==> !HasArrived(m, t, s)
  {
  }

  lemma AskMeansBarrier(m: Main, g: Game, t: Thread, s: Seat)
    requires MainOk(m, g) && ThreadOk(m, g, t, s) && t.pc == Handle(BarrierAsk)
    ensures InBarrier(m) && !HasArrived(m, t, s)
    ensures m.pc.Tell? ==> s < m.pc.to
    ensures t.outbox == []
  {
    ActsOn(m, g, t, s);
  }

  lemma TwoMissing(st: State, s: Seat)
    requires |st.threads| == 4 && s != 3
    requires !HasArrived(st.main, st.threads[s], s) && !HasArrived(st.main, st.threads[3], 3)
    ensures ArrivedCount(st) <= 2
  {
    hide HasArrived;
    match s {
      case 0 => case 1 => case _ =>
    }
  }

  /** Counts over the seats change by what changes at the one seat that steps. */
  lemma CountsStep(st: State, st': State, s: Seat)
    requires |st.threads| == |st'.threads| == 4 && st'.main == st.main
    requires forall u: Seat | u != s :: st'.threads[u] == st.threads[u]
    ensures ArrivedCount(st') - ArrivedCount(st)
            == (if HasArrived(st'.main, st'.threads[s], s) then 1 else 0) - (if HasArrived(st.main, st.threads[s], s) then 1 else 0)
    ensures WakeCount(st') - WakeCount(st)
            == (if Waking(st'.threads[s]) then 1 else 0) - (if Waking(st.threads[s]) then 1 else 0)
    ensures !HasArrived(st.main, st.threads[s], s) ==> ArrivedCount(st) < 4
  {
    hide HasArrived, Waking;
    match s {
      case 0 => case 1 => case 2 => case _ =>
    }
  }

  /** Arrival of a thread, seen from the barrier. */
  lemma ArrivalAllowed(st: State, s: Seat)
    requires Inv(st) && st.threads[s].pc == Handle(BarrierAsk)
    ensures InBarrier(st.main) && st.occupied < 4 && !HasArrived(st.main, st.threads[s], s)
    ensures st.threads[s].outbox == []
    ensures st.occupied + 1 == 4 ==> st.main.pc.BarrierWait?
    ensures !st.main.pc.BarrierCheck?
  {
    hide Valid, FileOk, Inv, TableOk;
    PartsOf(st);
    ThreadOf(st, s);
    ThreadOf(st, 3);
    hide MainOk;
    AskMeansBarrier(st.main, st.g, st.threads[s], s);
    CountsStep(st, st, s);
    ArrivedMeansSent(st.main, st.g, st.threads[3], 3);
    hide ThreadOk, HasArrived, WakeCount, ArrivedCount;
    if st.main.pc.Tell? {
      TwoMissing(st, s);
    }
  }

  lemma NextThread(st: State, s: Seat, choice: Choice)
    requires |st.threads| == |st.g.hands| == 4 && ThreadEnabled(st.threads[s], choice)
    ensures var st' := SeatNext(st, s, choice);
            && st'.main == st.main && st'.g.trickNumber == st.g.trickNumber && st'.ongoing == st.ongoing
            && |st'.threads| == 4
            && st'.threads[s] == ThreadNext(st.g, st.ongoing, st.occupied, s, st.threads[s], choice)
            && (forall u: Seat | u != s :: st'.threads[u] == st.threads[u])
            && st'.occupied == st.occupied + (if st.threads[s].pc == Handle(BarrierAsk) then 1 else 0)
            && (!TakesCard(st.g, s, st.threads[s]) ==> st'.g == st.g && st'.turn == st.turn)
            && (TakesCard(st.g, s, st.threads[s]) ==>
                  st'.turn == None && st'.g == DoPlay(st.g, s, st.threads[s].pc.m.card))
  {
    hide ThreadNext, Takes, Erase;
  }

  /** The stepping thread keeps its invariant, and what the step does to turns, arrivals and wake-ups. */
  lemma SelfOk(st: State, s: Seat, choice: Choice)
    requires Inv(st) && ThreadEnabled(st.threads[s], choice)
    ensures var t, st' := st.threads[s], SeatNext(st, s, choice);
            var u := st'.threads[s];
            && ThreadOk(st.main, st.g, u, s)
            && (HasPlayed(u) <==> HasPlayed(t) || TakesCard(st.g, s, t))
            && (Waking(u) <==> Waking(t) || (t.pc == Handle(BarrierAsk) && st.occupied + 1 == 4))
            && (HasArrived(st.main, u, s) <==> HasArrived(st.main, t, s) || t.pc == Handle(BarrierAsk))
            && (t.pc == Handle(BarrierAsk) ==> !Waking(t))
  {
    hide Valid, FileOk, Inv, TableOk;
    PartsOf(st);
    ThreadOf(st, s);
    OngoingOf(st);
    hide BarrierOk;
    var t := st.threads[s];
    NextThread(st, s, choice);
    hide SeatNext;
    if t.pc.Handle? {
      if t.pc.token == BarrierAsk { ArrivalAllowed(st, s); }
      var u := ThreadNext(st.g, st.ongoing, st.occupied, s, t, Go);
      HandleStep(st.g, st.ongoing, st.occupied, t, s);
      hide ThreadNext;
      HandleQueue(st.main, st.g, t, s, u);
      HandleKeep(st.main, st.g, t, s, u);
      hide ThreadOk, MainOk, HasArrived, InOrder;
    } else {
      SelfQuiet(st, s, choice);
    }
  }

  lemma SelfQuiet(st: State, s: Seat, choice: Choice)
    requires Typed(st) && MainOk(st.main, st.g) && ThreadOk(st.main, st.g, st.threads[s], s)
    requires st.ongoing ==> InBarrier(st.main)
    requires ThreadEnabled(st.threads[s], choice) && !st.threads[s].pc.Handle?
    ensures var t := st.threads[s];
            var u := ThreadNext(st.g, st.ongoing, st.occupied, s, t, choice);
            && ThreadOk(st.main, st.g, u, s)
            && (HasPlayed(u) <==> HasPlayed(t) || TakesCard(st.g, s, t))
            && (Waking(u) <==> Waking(t)) && Queue(u) == Queue(t)
  {
    var m, g, t := st.main, st.g, st.threads[s];
    var u := ThreadNext(g, st.ongoing, st.occupied, s, t, choice);
    if t.pc.Notify? {
      NotifyOk(m, g, st.ongoing, st.occupied, t, s);
    } else if t.pc.Wake? {
      WakeOk(m, g, st.ongoing, st.occupied, t, s);
    } else {
      LocalOk(m, g, st.ongoing, st.occupied, t, s, choice);
      hide ThreadNext;
    }
    hide ThreadOk, MainOk, Takes;
  }

  lemma SeatTable(st: State, s: Seat, choice: Choice)
    requires Inv(st) && ThreadEnabled(st.threads[s], choice)
    ensures |SeatNext(st, s, choice).threads| == 4 && TableOk(SeatNext(st, s, choice))
  {
    hide Valid, FileOk, Inv, BarrierOk, MainOk, ThreadOk, HasPlayed, HasArrived, Waking, TakesCard, Legal, SeatNext;
    PartsOf(st);
    NextThread(st, s, choice);
    SelfOk(st, s, choice);
    if TakesCard(st.g, s, st.threads[s]) {
      TakenCardIsMove(st, s);
    }
  }

  lemma SeatBarrier(st: State, s: Seat, choice: Choice)
    requires Inv(st) && ThreadEnabled(st.threads[s], choice)
    ensures |SeatNext(st, s, choice).threads| == 4 && BarrierOk(SeatNext(st, s, choice))
  {
    hide Valid, FileOk, Inv, TableOk;
    PartsOf(st);
    ThreadOf(st, s);
    NextThread(st, s, choice);
    SelfOk(st, s, choice);
    if st.threads[s].pc == Handle(BarrierAsk) {
      ArrivalAllowed(st, s);
    }
    hide SeatNext, MainOk, ThreadOk, HasArrived, Waking, HasPlayed, TakesCard;
    CountsStep(st, SeatNext(st, s, choice), s);
    hide ArrivedCount, WakeCount;
  }

  lemma SeatThreads(st: State, s: Seat, choice: Choice)
    requires Inv(st) && ThreadEnabled(st.threads[s], choice)
    ensures var st' := SeatNext(st, s, choice);
            |st'.threads| == 4 && forall u: Seat :: ThreadOk(st'.main, st'.g, st'.threads[u], u)
  {
    hide Valid, FileOk, Inv, TableOk, BarrierOk, MainOk;
    ThreadOf(st, s);
    NextThread(st, s, choice);
    SelfOk(st, s, choice);
    hide SeatNext, HasPlayed, Waking, HasArrived, TakesCard, ThreadOk;
    var st' := SeatNext(st, s, choice);
    forall u: Seat ensures ThreadOk(st'.main, st'.g, st'.threads[u], u) {
      ThreadOf(st, u);
      OthersKeep(st.main, st.g, st'.g, if u == s then st'.threads[s] else st.threads[u], u);
    }
  }

  lemma SeatGame(st: State, s: Seat, choice: Choice)
    requires Inv(st) && ThreadEnabled(st.threads[s], choice)
    ensures var st' := SeatNext(st, s, choice);
            FileOk(st'.g.file) && Valid(st'.g) && MainOk(st'.main, st'.g)
  {
    hide Valid, FileOk, Inv, TableOk, BarrierOk;
    PartsOf(st);
    NextThread(st, s, choice);
    if TakesCard(st.g, s, st.threads[s]) {
      TakenCardIsMove(st, s);
      MoveValid(st.g, Play(st.threads[s].pc.m.card));
    }
    hide SeatNext, ThreadOk, TakesCard, Legal;
  }

  /** A step of any seat thread keeps the invariant. */
  lemma SeatKeeps(st: State, s: Seat, choice: Choice)
    requires Inv(st) && ThreadEnabled(st.threads[s], choice)
    ensures Inv(Next(st, SeatStep(s, choice)))
  {
    assert Typed(Next(st, SeatStep(s, choice)));
    assert Next(st, SeatStep(s, choice)) == SeatNext(st, s, choice);
    hide *;
    SeatGame(st, s, choice);
    SeatThreads(st, s, choice);
    SeatTable(st, s, choice);
    SeatBarrier(st, s, choice);
    InvFromParts(SeatNext(st, s, choice));
  }
}
