/** What the invariant says about every run: refinement of the sequential game, branches that close the
    server are unreachable, tokens are conserved, and no state is stuck. */
module Safety {
  import opened Cards
  import opened GameModel
  import opened Conduct
  import opened Client
  import opened Protocol
  import opened Control
  import opened ControlSeat
  import opened ControlMain

  lemma InitialInv(st: State)
    requires Initial(st)
    ensures Inv(st)
  {
    StartValid(st.g);
    assert forall i | 0 <= i < |st.g.file| :: Sized(st.g.file[i]);
    hide Valid, FullPack;
    forall s: Seat ensures ThreadOk(st.main, st.g, st.threads[s], s) { }
  }

  lemma StepKeeps(st: State, a: Action)
    requires Inv(st) && Enabled1(st, a)
    ensures Inv(Next(st, a))
  {
    hide Inv;
    match a
    case MainStep(from) => MainKeeps(st, from);
    case SeatStep(s, choice) => SeatKeeps(st, s, choice);
  }

  // ---- Refinement -----------------------------------------------------------------------------------

  /** The move of the sequential game hidden in a step. */
  function StepMove(st: State, a: Action): Option<Move>
    requires Typed(st)
  {
    match a
    case MainStep(_) => MainMove(st)
    case SeatStep(s, _) =>
      if TakesCard(st.g, s, st.threads[s]) then Some(Play(st.threads[s].pc.m.card)) else None
  }

  lemma StepRefines(st: State, a: Action)
    requires Inv(st) && Enabled1(st, a)
    ensures match StepMove(st, a)
            case None => Next(st, a).g == st.g
            case Some(m) => Enabled(st.g, m) && Next(st, a).g == Apply(st.g, m)
  {
    TypedOf(st);
    match a
    case MainStep(from) =>
      hide Inv, Enabled, Apply, MainNext;
      MainRefines(st, from);
    case SeatStep(s, choice) =>
      hide Inv, Enabled, Apply, SeatNext;
      SeatRefines(st, s, choice);
  }

  lemma SeatRefines(st: State, s: Seat, choice: Choice)
    requires Inv(st) && Typed(st) && ThreadEnabled(st.threads[s], choice)
    ensures if TakesCard(st.g, s, st.threads[s]) then
              var m := Play(st.threads[s].pc.m.card);
              Enabled(st.g, m) && SeatNext(st, s, choice).g == Apply(st.g, m)
            else SeatNext(st, s, choice).g == st.g
  {
    hide Inv, Legal, Takes;
    NextThread(st, s, choice);
    if TakesCard(st.g, s, st.threads[s]) {
      TakenCardIsMove(st, s);
    }
    hide SeatNext;
  }

  function RunMoves(st: State, actions: seq<Action>): seq<Move>
    requires Typed(st) && IsRun(st, actions)
    decreases |actions|
  {
    if actions == [] then []
    else
      (match StepMove(st, actions[0]) case None => [] case Some(m) => [m])
      + RunMoves(Next(st, actions[0]), actions[1..])
  }

  /** Any interleaving of the main thread and the four seat threads, under any client messages, plays a run of
      the sequential game; the shared fields are the state that run ends in. */
  lemma {:induction false} RunRefines(st: State, actions: seq<Action>)
    requires Inv(st) && IsRun(st, actions)
    ensures Inv(RunOf(st, actions))
    ensures Runs(st.g, RunMoves(st, actions))
    ensures Exec(st.g, RunMoves(st, actions)) == RunOf(st, actions).g
    decreases |actions|
  {
    hide Inv, Enabled, Apply;
    TypedOf(st);
    if actions != [] {
      var a, st1 := actions[0], Next(st, actions[0]);
      hide Next, Enabled1;
      StepKeeps(st, a);
      StepRefines(st, a);
      RunRefines(st1, actions[1..]);
      var rest := RunMoves(st1, actions[1..]);
      match StepMove(st, a) {
        case None => assert [] + rest == rest;
        case Some(m) => assert ([m] + rest)[1..] == rest;
      }
    }
  }

  lemma TypedOf(st: State)
    requires Inv(st)
    ensures Typed(st)
  {
  }

  /** Reachable from some start by some interleaving. */
  ghost predicate Reachable(st: State) {
    exists st0, actions :: Initial(st0) && Typed(st0) && IsRun(st0, actions) && RunOf(st0, actions) == st
  }

  lemma {:induction false} RunSnoc(st: State, actions: seq<Action>, a: Action)
    requires Typed(st) && IsRun(st, actions) && Enabled1(RunOf(st, actions), a)
    ensures IsRun(st, actions + [a]) && RunOf(st, actions + [a]) == Next(RunOf(st, actions), a)
    decreases |actions|
  {
    hide Enabled1, Next, Typed;
    if actions == [] {
      assert ([] + [a])[1..] == [];
    } else {
      RunSnoc(Next(st, actions[0]), actions[1..], a);
      assert (actions + [a])[1..] == actions[1..] + [a];
    }
  }

  lemma RunCons(st: State, a: Action, rest: seq<Action>)
    requires Typed(st) && Enabled1(st, a) && IsRun(Next(st, a), rest)
    ensures IsRun(st, [a] + rest) && RunOf(st, [a] + rest) == RunOf(Next(st, a), rest)
  {
    assert ([a] + rest)[1..] == rest;
    hide Next, Enabled1;
  }

  /** The state with another thread for seat `s`. */
  function With(st: State, s: Seat, t: Thread): State
    requires |st.threads| == 4
  {
    st.(threads := st.threads[s := t])
  }

  lemma ReachableNext(st: State, a: Action)
    requires Reachable(st) && Typed(st) && Enabled1(st, a)
    ensures Reachable(Next(st, a))
  {
    var st0, actions :| Initial(st0) && Typed(st0) && IsRun(st0, actions) && RunOf(st0, actions) == st;
    hide Initial, Enabled1, Next;
    RunSnoc(st0, actions, a);
  }

  lemma ReachableInv(st: State)
    requires Reachable(st)
    ensures Inv(st)
  {
    var st0, actions :| Initial(st0) && Typed(st0) && IsRun(st0, actions) && RunOf(st0, actions) == st;
    hide Inv, Initial, IsRun, RunOf;
    InitialInv(st0);
    RunRefines(st0, actions);
  }

  /** The concurrent server refines the sequential game from its start. */
  lemma Refinement(st0: State, actions: seq<Action>)
    requires Initial(st0) && Typed(st0) && IsRun(st0, actions)
    ensures Blank(st0.g) && FileOk(st0.g.file)
    ensures Runs(st0.g, RunMoves(st0, actions))
    ensures RunOf(st0, actions).g == Exec(st0.g, RunMoves(st0, actions))
  {
    InitialInv(st0);
    RunRefines(st0, actions);
  }

  /** In every run of the server each seat's total is the sum of what that seat took in the deals played. */
  lemma TotalsOfRun(st0: State, actions: seq<Action>, s: Seat)
    requires Initial(st0) && Typed(st0) && IsRun(st0, actions)
    ensures FileOk(st0.g.file) && Valid(st0.g) && Runs(st0.g, RunMoves(st0, actions))
    ensures RunOf(st0, actions).g.totalScores[s] == Collected(st0.g, RunMoves(st0, actions), s)
  {
    hide *;
    Refinement(st0, actions);
    TotalsPerSeat(st0.g, RunMoves(st0, actions), s);
  }

  // ---- The protocol never goes wrong ------------------------------------------------------------------

  /** No branch that closes the server is ever taken, and the calculator always gets four cards. */
  lemma NeverBroken(st: State)
    requires Reachable(st)
    ensures !st.main.pc.Broken?
    ensures st.main.pc.ScoreTrick? ==> |st.g.table| == 4
  {
    hide *;
    ReachableInv(st);
    PartsOf(st);
    Unbroken(st.main, st.g);
  }

  lemma Unbroken(m: Main, g: Game)
    requires MainOk(m, g)
    ensures !m.pc.Broken? && (m.pc.ScoreTrick? ==> |g.table| == 4)
  {
  }

  /** At any time at most one notice is in the five pipes to the server, so the order in which `poll` reports
      them is immaterial; whatever the server reads is what it expects. */
  lemma OneNotice(st: State, s: Seat, u: Seat)
    requires Reachable(st)
    ensures Typed(st)
    ensures st.threads[s].outbox != [] && st.threads[u].outbox != [] ==> s == u
    ensures st.threads[s].outbox != [] ==>
              || (st.main.pc.AwaitCard? && st.threads[s].outbox == [Played] && s == Place(st.main.beginning, st.main.pc.i))
              || (InBarrier(st.main) && st.threads[s].outbox == [Arrived] && st.occupied == 4)
  {
    ReachableInv(st);
    hide Reachable, Inv, Valid, FileOk, TableOk;
    PartsOf(st);
    ThreadOf(st, s);
    ThreadOf(st, u);
    hide MainOk, InOrder, HasArrived, ArrivedCount;
    if st.threads[s].outbox == [Arrived] {
      OneWaking(st, s);
    }
    if st.threads[u].outbox == [Arrived] {
      OneWaking(st, u);
    }
  }

  /** Turn tokens are conserved: one in the whole system while the server waits for a card, none otherwise. */
  lemma OneTurnToken(st: State)
    requires Reachable(st)
    ensures Typed(st)
    ensures TurnTokens(st.threads[0]) + TurnTokens(st.threads[1]) + TurnTokens(st.threads[2]) + TurnTokens(st.threads[3])
            == if st.main.pc.AwaitCard? then 1 else 0
  {
    hide *;
    ReachableInv(st);
    TokensOf(st, 0);
    TokensOf(st, 1);
    TokensOf(st, 2);
    TokensOf(st, 3);
    OneAwaited(st.main);
  }

  lemma TokensOf(st: State, s: Seat)
    requires Inv(st)
    ensures Typed(st) && |st.threads| == 4
    ensures TurnTokens(st.threads[s]) == if Awaited(st.main, s) then 1 else 0
  {
    hide Inv, TurnTokens, Awaited, TurnMarks, Queue, Acted;
    ThreadOf(st, s);
    MarksAreTokens(st.main, st.threads[s], s);
  }

  /** No script holds the turn token twice, and no pipe two notices, so the marks count the tokens. */
  lemma MarksAreTokens(m: Main, t: Thread, s: Seat)
    requires InOrder(m, t, s) && |t.outbox| <= 1
    ensures TurnTokens(t) == TurnMarks(t)
  {
    var a, b := Acted(m, t, s), Sent(m, s);
    var script := Script(m.round);
    assert script == script[..a] + script[a..b] + script[b..];
    ScriptOnce(m.round);
    hide Script, Sent, Queue;
  }

  lemma ScriptOnce(round: Round)
    ensures multiset(Script(round))[CardPlay] <= 1
  {
  }

  lemma OneAwaited(m: Main)
    ensures (if Awaited(m, 0) then 1 else 0) + (if Awaited(m, 1) then 1 else 0) + (if Awaited(m, 2) then 1 else 0)
            + (if Awaited(m, 3) then 1 else 0) == if m.pc.AwaitCard? then 1 else 0
  {
  }

  /** A thread destined to play belongs to the running trick, and the i-th card of the table was dealt to the
      i-th seat after the one that leads. */
  lemma TurnsInOrder(st: State, s: Seat, i: nat)
    requires Reachable(st)
    ensures Typed(st)
    ensures st.threads[s].destined ==>
              st.main.pc.AwaitCard? && s == Place(st.main.beginning, st.main.pc.i) && st.threads[s].current == st.g.trickNumber
    ensures st.g.phase == Trick && i < |st.g.table| ==>
              |st.g.table| <= 4 && |st.g.deal| == 4 && st.main.beginning == st.g.lastTaker
              && st.g.table[i] in st.g.deal[Place(st.main.beginning, i)]
  {
    ReachableInv(st);
    hide Reachable, Inv, FileOk, TableOk, BarrierOk;
    PartsOf(st);
    ThreadOf(st, s);
    if st.threads[s].destined {
      Destined(st.main, st.g, st.threads[s], s);
    }
    hide ThreadOk;
    if st.g.phase == Trick && i < |st.g.table| {
      PhaseTrick(st.main, st.g);
      hide MainOk;
      TableDealt(st.g, i);
    }
  }

  lemma PhaseTrick(m: Main, g: Game)
    requires MainOk(m, g) && g.phase == Trick
    ensures m.beginning == g.lastTaker && |g.table| <= 4
  {
  }

  lemma TableDealt(g: Game, i: nat)
    requires Valid(g) && g.phase == Trick && i < |g.table| <= 4
    ensures |g.deal| == 4 && g.table[i] in g.deal[Place(g.lastTaker, i)]
  {
    hide Scored, Void, NoRevoke, PackConserved;
    var s := Place(g.lastTaker, i);
    PlaceMod(g.lastTaker, i);
    PlayedByLast(g.tricks, g.table, Leaders(g), s);
    var mine := PlayedBy(Rounds(g), Leaders(g), s);
    assert mine[|mine| - 1] == g.table[i];
    assert g.table[i] in multiset(g.deal[s]);
  }

  /** The barrier lets go only when all four threads have arrived; then no wake-up and no token is left. */
  lemma BarrierComplete(st: State, s: Seat)
    requires Reachable(st) && st.main.pc.BarrierCheck?
    ensures Typed(st) && st.occupied == 4
    ensures HasArrived(st.main, st.threads[s], s) && Queue(st.threads[s]) == []
    ensures st.threads[s].outbox == [] && !st.threads[s].pc.Wake?
  {
    ReachableInv(st);
    hide Reachable, Inv;
    AllArrived(st, s);
    ThreadOf(st, s);
    hide InOrder, HasArrived;
  }

  /** During a barrier `occupied` is the number of arrived threads, and the wake-up exists exactly once and
      exactly when all four have arrived and the main thread has not read it. */
  lemma BarrierCounts(st: State)
    requires Reachable(st)
    ensures Typed(st)
    ensures InBarrier(st.main) ==> st.occupied == ArrivedCount(st)
    ensures WakeCount(st) == if InBarrier(st.main) && ArrivedCount(st) == 4 && !st.main.pc.BarrierCheck? then 1 else 0
  {
    ReachableInv(st);
    hide Reachable, Inv;
    PartsOf(st);
  }

  // ---- No state is stuck ------------------------------------------------------------------------------

  /** A step that needs neither a client nor the clock. */
  predicate Internal(a: Action) {
    a.MainStep? || a.choice.Go?
  }

  /** Everything rests; only the client of the seat in turn can move, and its thread listens to it. */
  predicate WaitsForClient(st: State, s: Seat)
    requires Typed(st)
  {
    && Awaited(st.main, s) && |st.g.table| == st.main.pc.i && st.turn == Some(s)
    && st.threads[s].destined && !st.threads[s].barrier && st.threads[s].current == st.g.trickNumber
    && forall u: Seat :: Resting(st.threads[u])
  }

  predicate Resting(t: Thread) {
    t.pc.Poll? && t.inbox == [] && t.outbox == []
  }

  /** A thread with no internal step rests at its poll. */
  lemma ThreadRests(m: Main, g: Game, t: Thread, s: Seat)
    requires ThreadOk(m, g, t, s) && !ThreadEnabled(t, Go)
    ensures t.pc.Poll? && t.inbox == [] && Acted(m, t, s) == Sent(m, s)
  {
    hide InOrder, Sent, Script, Awaited;
  }

  /** In every reachable state some thread can take an internal step, or the file is played out, or the only
      thing missing is a message of the one client whose turn it is. */
  lemma NeverStuck(st: State)
    requires Reachable(st)
    ensures Typed(st)
    ensures st.main.pc.Finished? || (exists s: Seat :: WaitsForClient(st, s))
            || (exists a: Action :: Internal(a) && Enabled1(st, a))
  {
    ReachableInv(st);
    hide Reachable, Inv, Valid, FileOk;
    PartsOf(st);
    if s: Seat :| ThreadEnabled(st.threads[s], Go) {
      assert Internal(SeatStep(s, Go)) && Enabled1(st, SeatStep(s, Go));
    } else if from: Seat :| MainEnabled(st, from) {
      assert Internal(MainStep(from)) && Enabled1(st, MainStep(from));
    } else {
      AllRest(st);
    }
  }

  lemma AllRest(st: State)
    requires Inv(st)
    requires forall s: Seat :: !ThreadEnabled(st.threads[s], Go)
    requires forall s: Seat :: !MainEnabled(st, s)
    ensures st.main.pc.Finished? || exists s: Seat :: WaitsForClient(st, s)
  {
    hide Inv, Valid, FileOk, ThreadEnabled;
    PartsOf(st);
    forall u: Seat ensures ThreadOk(st.main, st.g, st.threads[u], u) && st.threads[u].pc.Poll? && st.threads[u].inbox == []
                           && Acted(st.main, st.threads[u], u) == Sent(st.main, u)
                           && (st.main.pc.BarrierWait? || st.main.pc.AwaitCard? ==> st.threads[u].outbox == [])
    {
      ThreadOf(st, u);
      ThreadRests(st.main, st.g, st.threads[u], u);
      assert !MainEnabled(st, u);
    }
    assert !MainEnabled(st, 0);
    if st.main.pc.BarrierWait? {
      AllArrivedWakes(st);
      assert false;
    } else if st.main.pc.AwaitCard? {
      var s := Place(st.main.beginning, st.main.pc.i);
      hide BarrierOk, InOrder, Sent;
      AwaitedRests(st.main, st.g, st.threads[s], s);
      assert WaitsForClient(st, s);
    }
  }

  lemma AwaitedRests(m: Main, g: Game, t: Thread, s: Seat)
    requires MainOk(m, g) && ThreadOk(m, g, t, s) && Awaited(m, s) && t.pc.Poll? && t.inbox == [] && t.outbox == []
    ensures t.destined && !t.barrier && t.current == g.trickNumber && !HasPlayed(t)
  {
    assert Queue(t) == [];
    Destined(m, g, t, s);
  }

  lemma AllArrivedWakes(st: State)
    requires |st.threads| == 4 && st.main.pc.BarrierWait? && BarrierOk(st)
    requires forall s: Seat :: Acted(st.main, st.threads[s], s) == Sent(st.main, s) && st.threads[s].pc.Poll?
    ensures exists s: Seat :: st.threads[s].outbox != []
  {
    forall s: Seat ensures HasArrived(st.main, st.threads[s], s) && !st.threads[s].pc.Wake? {
      assert Acted(st.main, st.threads[s], s) == Sent(st.main, s);
      hide BarrierOk, Acted;
    }
    hide HasArrived;
    assert st.threads[0].outbox == [Arrived] || st.threads[1].outbox == [Arrived]
        || st.threads[2].outbox == [Arrived] || st.threads[3].outbox == [Arrived];
  }

  /** When the server waits for a seat, a legal card of that seat's client is taken up at once. */
  lemma WaitingAnswered(st: State, s: Seat, c: Card)
    requires Typed(st) && WaitsForClient(st, s) && Legal(st.g.hands[s], st.g.table, c)
    ensures var a, b := SeatStep(s, FromClient(Input(st.g.trickNumber, c))), SeatStep(s, Go);
            Enabled1(st, a) && Enabled1(Next(st, a), b) && Next(Next(st, a), b).g == DoPlay(st.g, s, c)
  {
    var m := Input(st.g.trickNumber, c);
    var st1 := SeatNext(st, s, FromClient(m));
    assert Resting(st.threads[s]);
    assert st1.threads[s].pc == Parse(m, ToTop) && st1.g == st.g;
    hide Legal;
    assert TakesCard(st1.g, s, st1.threads[s]);
  }

  // ---- There are starts --------------------------------------------------------------------------------

  /** The server can start with any well-formed file, so nothing above is said of no run at all. */
  lemma StartExists(file: seq<Deal>) returns (st: State)
    requires FileOk(file)
    ensures Initial(st) && st.g.file == file && Reachable(st)
    ensures Typed(st) && forall s: Seat :: !st.threads[s].barrier
  {
    var none: seq<seq<Card>> := [[], [], [], []];
    var zero := [0, 0, 0, 0];
    var g := Game(file, 0, Idle, 0, 0, none, none, [], 0, 0, [], [], zero, zero, zero);
    var t := Thread(Top, false, false, 0, [], [], [], [], [], []);
    st := State(g, Main(BarrierTop, Joining, 0, 0), false, 0, None, [t, t, t, t]);
    assert forall i | 0 <= i < |file| :: Sized(file[i]);
    hide FullPack;
    assert Initial(st) && Typed(st);
    assert IsRun(st, []) && RunOf(st, []) == st;
  }
}
