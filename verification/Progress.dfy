/** No livelock: between two messages of clients (or timeouts) only boundedly many internal steps exist, so by
    `Safety.NeverStuck` the server always comes to wait for the client whose turn it is, or finishes. */
module Progress {
  import opened Cards
  import opened GameModel
  import opened Protocol
  import opened Control
  import opened ControlSeat
  import opened ControlMain
  import opened Safety

  /** Barrier rounds ahead: fourteen a deal, and one more to start the next. */
  function RoundsLeft(m: Main, g: Game): int {
    15 * (|g.file| - g.next) +
    match m.round
    case Joining => 1
    case First => if Unloaded(m.pc) then 0 else 14
    case Later => 14 - m.trick
    case Closing => 1
  }

  /** Steps ahead within a round, from above. */
  function Rank(pc: MainPc): nat {
    match pc
    case Tell(token, to) => (match token
                             case BarrierEnd => 99 - to
                             case DealToken => 88 - to
                             case TakenToken => 59 - to
                             case ScoresToken => 59 - to
                             case BarrierAsk => 49 - to
                             case CardPlay => 0)
    case NextDeal => 90
    case OpenDeal => 89
    case TrickTop => 80
    case GiveTurn(i) => 79 - 3 * i
    case CallTurn(i) => 78 - 3 * i
    case AwaitCard(i) => 77 - 3 * i
    case ScoreTrick => 60
    case ScoreDeal => 60
    case BarrierTop => 50
    case BarrierWait => 40
    case BarrierCheck => 39
    case Finished => 0
    case Broken => 0
  }

  function MainLeft(m: Main, g: Game): int {
    100 * RoundsLeft(m, g) + Rank(m.pc)
  }

  /** Steps of a seat thread until it rests, tokens and deferred messages aside. */
  function Cost(pc: Pc): nat {
    match pc
    case Poll => 0
    case Serve => 0
    case DrainTop => 1
    case Top => 2
    case Wake => 3
    case Repeat(_) => 4
    case DrainEnd => 3
    case Handle(_) => 4
    case Notify(_) => 4
    case Parse(_, _) => 5
  }

  function Load(t: Thread): nat {
    6 * |t.inbox| + 6 * |t.deferred| + Cost(t.pc)
  }

  function Energy(st: State): int
    requires |st.threads| == 4
  {
    7 * MainLeft(st.main, st.g)
    + Load(st.threads[0]) + Load(st.threads[1]) + Load(st.threads[2]) + Load(st.threads[3])
  }

  lemma EnergyNonNegative(st: State)
    requires Inv(st)
    ensures Typed(st) && Energy(st) >= 0
  {
    hide Inv, Valid, FileOk, TableOk, BarrierOk;
    PartsOf(st);
    CountersOf(st);
  }

  /** Whether an action is one the client or the clock takes. */
  predicate External(a: Action) {
    a.SeatStep? && !a.choice.Go?
  }

  lemma SeatLoad(g: Game, ongoing: bool, occupied: int, s: Seat, t: Thread, choice: Choice)
    requires |g.hands| == 4 && ThreadEnabled(t, choice)
    ensures var u := ThreadNext(g, ongoing, occupied, s, t, choice);
            if !choice.Go? then Load(u) <= Load(t) + 8 else Load(u) < Load(t)
  {
    hide Takes;
  }

  lemma SeatEnergy(st: State, s: Seat, choice: Choice)
    requires Typed(st) && ThreadEnabled(st.threads[s], choice)
    ensures var st' := SeatNext(st, s, choice);
            |st'.threads| == 4 &&
            if !choice.Go? then Energy(st') <= Energy(st) + 8 else Energy(st') < Energy(st)
  {
    hide Load, Takes;
    NextThread(st, s, choice);
    SeatLoad(st.g, st.ongoing, st.occupied, s, st.threads[s], choice);
    hide ThreadNext, Erase;
    assert MainLeft(SeatNext(st, s, choice).main, SeatNext(st, s, choice).g) == MainLeft(st.main, st.g);
    hide MainLeft, SeatNext;
    match s {
      case 0 => case 1 => case 2 => case _ =>
    }
  }

  /** Every step of the main thread brings the end of the file nearer. */
  lemma MainDescends(st: State, from: Seat)
    requires Inv(st) && MainEnabled(st, from)
    ensures var st' := MainNext(st, from);
            MainLeft(st'.main, st'.g) < MainLeft(st.main, st.g)
  {
    hide Inv, Valid, FileOk, TableOk, BarrierOk, ThreadOk, MainOk, MainLeft, MainNext, Counters;
    PartsOf(st);
    CountersOf(st);
    match st.main.pc {
      case AwaitCard(_) =>
        ReadsPlay(st, from);
        QuietDescends(st, from);
      case BarrierWait =>
        ReadsWake(st, from);
        QuietDescends(st, from);
      case BarrierCheck =>
        AllArrived(st, 0);
        CheckDescends(st, from);
      case _ => QuietDescends(st, from);
    }
  }

  lemma CheckDescends(st: State, from: Seat)
    requires Typed(st) && MainEnabled(st, from) && MainOk(st.main, st.g) && st.main.pc.BarrierCheck? && st.occupied == 4
    ensures var st' := MainNext(st, from);
            MainLeft(st'.main, st'.g) < MainLeft(st.main, st.g)
  {
  }

  lemma QuietDescends(st: State, from: Seat)
    requires Typed(st) && MainEnabled(st, from) && MainOk(st.main, st.g) && !st.main.pc.BarrierCheck?
    requires Counters(st.g) && st.g.next <= |st.g.file|
    requires st.main.pc.AwaitCard? ==> st.threads[from].outbox == [Played] && from == Place(st.main.beginning, st.main.pc.i)
    requires st.main.pc.BarrierWait? ==> st.threads[from].outbox == [Arrived]
    ensures var st' := MainNext(st, from);
            MainLeft(st'.main, st'.g) < MainLeft(st.main, st.g)
  {
    if st.main.pc.NextDeal? || st.main.pc.Tell? {
      TellDescends(st, from);
    } else {
      RoundStays(st, from);
      RankFalls(st, from);
    }
    hide MainNext, MainOk, RoundsLeft, Rank, Counters;
  }

  lemma TellDescends(st: State, from: Seat)
    requires Typed(st) && MainEnabled(st, from) && MainOk(st.main, st.g) && (st.main.pc.NextDeal? || st.main.pc.Tell?)
    requires Counters(st.g) && st.g.next <= |st.g.file|
    ensures var st' := MainNext(st, from);
            MainLeft(st'.main, st'.g) < MainLeft(st.main, st.g)
  {
    hide Send, NewLogs;
  }

  lemma RoundStays(st: State, from: Seat)
    requires Typed(st) && MainEnabled(st, from) && MainOk(st.main, st.g)
    requires !st.main.pc.BarrierCheck? && !st.main.pc.NextDeal? && !st.main.pc.Tell?
    requires st.main.pc.AwaitCard? ==> st.threads[from].outbox == [Played] && from == Place(st.main.beginning, st.main.pc.i)
    requires st.main.pc.BarrierWait? ==> st.threads[from].outbox == [Arrived]
    requires Counters(st.g) && st.g.next <= |st.g.file|
    ensures RoundsLeft(MainNext(st, from).main, MainNext(st, from).g) == RoundsLeft(st.main, st.g)
  {
    hide Send, Receive1;
  }

  lemma RankFalls(st: State, from: Seat)
    requires Typed(st) && MainEnabled(st, from) && MainOk(st.main, st.g)
    requires !st.main.pc.BarrierCheck? && !st.main.pc.NextDeal? && !st.main.pc.Tell?
    requires st.main.pc.AwaitCard? ==> st.threads[from].outbox == [Played] && from == Place(st.main.beginning, st.main.pc.i)
    requires st.main.pc.BarrierWait? ==> st.threads[from].outbox == [Arrived]
    requires Counters(st.g) && st.g.next <= |st.g.file|
    ensures Rank(MainNext(st, from).main.pc) < Rank(st.main.pc)
  {
    hide Send, Receive1;
  }

  lemma MainLoads(st: State, from: Seat)
    requires Typed(st) && MainEnabled(st, from)
    ensures var st' := MainNext(st, from);
            && |st'.threads| == 4
            && Load(st'.threads[0]) + Load(st'.threads[1]) + Load(st'.threads[2]) + Load(st'.threads[3])
               <= Load(st.threads[0]) + Load(st.threads[1]) + Load(st.threads[2]) + Load(st.threads[3]) + 6
  {
    ThreadsStep(st, from);
    hide MainNext, Cost;
  }

  lemma StepEnergy(st: State, a: Action)
    requires Inv(st) && Typed(st) && Enabled1(st, a)
    ensures if External(a) then Energy(Next(st, a)) <= Energy(st) + 8 else Energy(Next(st, a)) < Energy(st)
  {
    match a
    case SeatStep(s, choice) =>
      hide Inv, Energy, SeatNext;
      SeatEnergy(st, s, choice);
    case MainStep(from) =>
      hide Inv, MainLeft, Load, MainNext, MainEnabled;
      MainDescends(st, from);
      MainLoads(st, from);
  }

  function Externals(actions: seq<Action>): nat {
    if actions == [] then 0 else (if External(actions[0]) then 1 else 0) + Externals(actions[1..])
  }

  /** In any run the number of internal steps is bounded by the start state and by how often clients spoke or
      time ran out. */
  lemma {:induction false} InternalStepsBounded(st: State, actions: seq<Action>)
    requires Inv(st) && Typed(st) && IsRun(st, actions)
    ensures |actions| - Externals(actions) <= Energy(st) + 8 * Externals(actions)
    decreases |actions|
  {
    hide Inv, Energy, Next, Enabled1;
    if actions == [] {
      EnergyNonNegative(st);
    } else {
      var st1 := Next(st, actions[0]);
      StepEnergy(st, actions[0]);
      StepKeeps(st, actions[0]);
      InternalStepsBounded(st1, actions[1..]);
    }
  }

  /** From the start of the server: at most this many internal steps, whatever the interleaving. */
  lemma StepsBounded(st0: State, actions: seq<Action>)
    requires Initial(st0) && Typed(st0) && IsRun(st0, actions)
    ensures |actions| - Externals(actions) <= 10500 * |st0.g.file| + 1058 + 8 * Externals(actions)
  {
    StartEnergy(st0);
    hide Initial, IsRun, Inv, Energy;
    InitialInv(st0);
    InternalStepsBounded(st0, actions);
  }

  lemma StartEnergy(st0: State)
    requires Initial(st0)
    ensures |st0.threads| == 4 && Energy(st0) == 10500 * |st0.g.file| + 1058
  {
    hide FileOk, Load;
    forall s: Seat ensures Load(st0.threads[s]) == 2 { IdleLoad(st0.threads[s]); }
  }

  lemma IdleLoad(t: Thread)
    requires Idling(t)
    ensures Load(t) == 2
  {
  }
}
