/** The concurrent server and the wire together: whatever a thread has sent, its client reads back unchanged. */
module Delivery {
  import opened Cards
  import opened Points
  import opened GameModel
  import opened Conduct
  import opened Client
  import opened Messages
  import opened Wire
  import opened Protocol
  import opened Control
  import opened ControlSeat
  import opened Safety
  import opened Logs
  import opened LogSteps
  import opened Agreement
  import opened Acceptance
  import Deferral

  // ---- Scores are never negative ------------------------------------------------------------------------------

  predicate NotNegative(xs: seq<int>) {
    |xs| == 4 && xs[0] >= 0 && xs[1] >= 0 && xs[2] >= 0 && xs[3] >= 0
  }

  predicate Sound(g: Game) {
    NotNegative(g.scores) && NotNegative(g.roundScores) && NotNegative(g.totalScores) && g.trickNumber <= 13
  }

  lemma MoveSound(g: Game, m: Move)
    requires Sound(g) && Enabled(g, m)
    ensures Sound(Apply(g, m))
  {
    hide Legal, Taker, TrickPoints;
  }

  /** A number among non-negative ones is at most their sum. */
  lemma AtMostSum(xs: seq<int>, s: Seat)
    requires NotNegative(xs)
    ensures 0 <= xs[s] <= Sum(xs)
  {
    Sum4(xs);
  }

  // ---- WRONG messages ------------------------------------------------------------------------------------------

  /** Threads count tricks from 0 to 13, and say WRONG with such a number only. */
  predicate WrongsOk(t: Thread) {
    && (t.pc.Top? || 0 <= t.current <= 13)
    && forall i | 0 <= i < |t.log| && t.log[i].WrongMsg? :: 0 <= t.log[i].number <= 13
  }

  predicate SoundState(st: State) {
    |st.threads| == 4 && Sound(st.g) && forall s: Seat :: WrongsOk(st.threads[s])
  }

  lemma SeatWrongs(g: Game, ongoing: bool, occupied: int, s: Seat, t: Thread, choice: Choice)
    requires |g.hands| == 4 && ThreadEnabled(t, choice) && WrongsOk(t) && g.trickNumber <= 13
    ensures WrongsOk(ThreadNext(g, ongoing, occupied, s, t, choice))
  {
    hide Takes;
  }

  lemma MainWrongs(st: State, from: Seat, s: Seat)
    requires Typed(st) && MainEnabled(st, from) && WrongsOk(st.threads[s])
    ensures |MainNext(st, from).threads| == 4 && WrongsOk(MainNext(st, from).threads[s])
  {
    ThreadsStep(st, from);
    hide MainNext;
  }

  lemma SeatSound(st: State, s: Seat, choice: Choice, u: Seat)
    requires Typed(st) && ThreadEnabled(st.threads[s], choice) && Sound(st.g) && WrongsOk(st.threads[s]) && WrongsOk(st.threads[u])
    ensures |SeatNext(st, s, choice).threads| == 4 && WrongsOk(SeatNext(st, s, choice).threads[u])
  {
    SoundTrick(st.g);
    hide Sound, WrongsOk, ThreadNext, ThreadEnabled;
    NextThread(st, s, choice);
    SeatWrongs(st.g, st.ongoing, st.occupied, s, st.threads[s], choice);
    hide SeatNext;
  }

  lemma NextSound(st: State, a: Action)
    requires Inv(st) && Typed(st) && Enabled1(st, a) && SoundState(st)
    ensures SoundState(Next(st, a))
  {
    GameSound(st, a);
    hide Inv, Sound, WrongsOk, MainNext, SeatNext, MainEnabled, ThreadEnabled;
    forall u: Seat ensures |Next(st, a).threads| == 4 && WrongsOk(Next(st, a).threads[u]) {
      match a
      case MainStep(from) => MainWrongs(st, from, u);
      case SeatStep(s, choice) => SeatSound(st, s, choice, u);
    }
    hide Next, Enabled1;
  }

  lemma SoundTrick(g: Game)
    requires Sound(g)
    ensures g.trickNumber <= 13
  {
  }

  lemma GameSound(st: State, a: Action)
    requires Inv(st) && Typed(st) && Enabled1(st, a) && Sound(st.g)
    ensures Sound(Next(st, a).g)
  {
    StepRefines(st, a);
    hide Inv, Sound, Enabled, Apply, Next, Enabled1;
    match StepMove(st, a) {
      case None =>
      case Some(m) => MoveSound(st.g, m);
    }
  }

  lemma {:induction false} RunSound(st: State, actions: seq<Action>)
    requires Inv(st) && Typed(st) && IsRun(st, actions) && SoundState(st)
    ensures SoundState(RunOf(st, actions))
    decreases |actions|
  {
    hide Inv, SoundState, Next, Enabled1;
    if actions != [] {
      NextSound(st, actions[0]);
      StepKeeps(st, actions[0]);
      RunSound(Next(st, actions[0]), actions[1..]);
    }
  }

  lemma ReachableSound(st: State)
    requires Reachable(st)
    ensures SoundState(st)
  {
    var st0, actions :| Initial(st0) && Typed(st0) && IsRun(st0, actions) && RunOf(st0, actions) == st;
    forall s: Seat ensures WrongsOk(st0.threads[s]) { assert Idling(st0.threads[s]); }
    assert SoundState(st0);
    hide Inv, IsRun, RunOf, SoundState, Initial;
    InitialInv(st0);
    RunSound(st0, actions);
  }

  // ---- WRONG of trick 0

  lemma ReachableOrderly(st: State, s: Seat)
    requires Reachable(st)
    ensures |st.threads| == 4 && Deferral.Orderly(st.threads[s])
  {
    var st0, actions :| Initial(st0) && Typed(st0) && IsRun(st0, actions) && RunOf(st0, actions) == st;
    forall u: Seat ensures Deferral.Orderly(st0.threads[u]) {
      assert Idling(st0.threads[u]);
    }
    hide IsRun, RunOf, Initial;
    Deferral.RunOrderly(st0, actions);
  }

  /** A thread that is about to look at the trick number, with nothing waiting for it. */
  predicate Unbusy(st: State, s: Seat)
    requires |st.threads| == 4
  {
    var t := st.threads[s];
    t.pc.Top? && !t.destined && !t.barrier && !st.ongoing && t.inbox == [] && t.deferred == []
  }

  /** The thread looks at the trick number, polls, reads a message, and refuses it. */
  function Refusal(s: Seat, m: Input): seq<Action> {
    [SeatStep(s, Go), SeatStep(s, Go), SeatStep(s, FromClient(m)), SeatStep(s, Go)]
  }

  lemma RefusesWith(st: State, s: Seat, m: Input)
    requires Typed(st) && Unbusy(st, s)
    ensures IsRun(st, Refusal(s, m))
    ensures RunOf(st, Refusal(s, m)).threads[s].log == st.threads[s].log + [WrongMsg(st.g.trickNumber)]
  {
    var n, t := st.g.trickNumber, st.threads[s];
    var go := SeatStep(s, Go);
    var t1 := t.(current := n, pc := DrainTop);
    var t3 := t1.(received := t.received + [m], pc := Parse(m, ToTop));
    var st1, st2, st3 := With(st, s, t1), With(st, s, t1.(pc := Poll)), With(st, s, t3);
    assert st1 == Next(st, go);
    assert st2.threads == st1.threads[s := st2.threads[s]] && st2 == Next(st1, go);
    assert st3.threads == st2.threads[s := t3] && st3 == Next(st2, SeatStep(s, FromClient(m)));
    assert Next(st3, go).threads[s].log == t.log + [WrongMsg(n)];
    hide Next, Enabled1, Typed;
    RunCons(st3, go, []);
    RunCons(st2, SeatStep(s, FromClient(m)), [go] + []);
    RunCons(st1, go, [SeatStep(s, FromClient(m))] + ([go] + []));
    RunCons(st, go, [go] + ([SeatStep(s, FromClient(m))] + ([go] + [])));
    assert Refusal(s, m) == [go] + ([go] + ([SeatStep(s, FromClient(m))] + ([go] + [])));
  }

  /** While DEAL is being handed out, in whichever deal, a thread that has nothing to do answers any message of its
      client with WRONG 0. */
  lemma WrongZero(st: State, s: Seat, m: Input)
    requires Reachable(st) && |st.threads| == 4 && st.main.pc.Tell? && st.main.pc.token == DealToken
    requires st.threads[s].pc.Top? && st.threads[s].inbox == []
    ensures Typed(st) && IsRun(st, Refusal(s, m))
    ensures RunOf(st, Refusal(s, m)).threads[s].log == st.threads[s].log + [WrongMsg(0)]
  {
    ReachableInv(st);
    ReachableOrderly(st, s);
    hide Reachable, Inv;
    PartsOf(st);
    ThreadOf(st, s);
    OngoingOf(st);
    DealingOut(st.main, st.g, st.threads[s], s);
    hide MainOk, ThreadOk, Valid, FileOk, TableOk, BarrierOk, IsRun, RunOf;
    RefusesWith(st, s, m);
  }

  lemma DealingOut(m: Main, g: Game, t: Thread, s: Seat)
    requires MainOk(m, g) && ThreadOk(m, g, t, s) && m.pc.Tell? && m.pc.token == DealToken
    requires t.pc.Top? && t.inbox == []
    ensures g.trickNumber == 0 && !t.destined && !t.barrier && !InBarrier(m)
  {
    assert Queue(t) == [];
  }

  /** Such a run from the very start of the server. */
  lemma WrongZeroSent(file: seq<Deal>, s: Seat, m: Input) returns (st: State)
    requires FileOk(file)
    ensures Reachable(st) && |st.threads| == 4 && st.threads[s].log == [WrongMsg(0)]
  {
    var st0 := StartExists(file);
    assert Idling(st0.threads[s]);
    assert Unbusy(st0, s) && st0.g.trickNumber == 0;
    hide Initial, FileOk, IsRun, RunOf;
    RefusesWith(st0, s, m);
    st := RunOf(st0, Refusal(s, m));
    RunReachable(st0, Refusal(s, m));
  }

  lemma {:induction false} RunReachable(st: State, actions: seq<Action>)
    requires Reachable(st) && Typed(st) && IsRun(st, actions)
    ensures Reachable(RunOf(st, actions))
    decreases |actions|
  {
    hide Reachable, Enabled1, Next, Typed;
    if actions != [] {
      ReachableNext(st, actions[0]);
      RunReachable(Next(st, actions[0]), actions[1..]);
    }
  }

  // ---- Every message fits the wire --------------------------------------------------------------------------------

  /** A game file whose total is below 10^20, so that no score needs more than twenty digits. */
  predicate Moderate(g: Game) {
    160 * |g.file| < Pow10(20)
  }

  lemma TrickFits(g: Game, s: Seat, j: nat)
    requires Shape(g) && Counters(g) && g.next > 0 && j < |Rounds(g)| <= |Leaders(g)|
    ensures Fits(TrickOut(g, s, j))
  {
    hide Pow10;
  }

  lemma TakenFits(g: Game, j: nat)
    requires Shape(g) && Counters(g) && g.next > 0 && j < |g.tricks|
    ensures Fits(TakenOut(g, j))
  {
    hide Pow10;
    assert g.tricks[j] in g.tricks;
  }

  lemma DealFits(g: Game, s: Seat)
    requires FileOk(g.file) && Shape(g) && g.next > 0 && g.phase != Dealt
    ensures Fits(DealOut(g, s))
  {
    hide Pow10, FullPack;
    assert Sized(g.file[g.next - 1]);
  }

  lemma SumsBounded(g: Game)
    requires FileOk(g.file) && Valid(g) && g.phase == Idle && g.next > 0
    ensures |g.roundScores| == |g.totalScores| == 4 && 0 < |g.file|
    ensures Sum(g.roundScores) <= 160 && Sum(g.totalScores) <= 160 * |g.file|
  {
    hide FileOk, HandsConserved, PackConserved, Void, NoRevoke, Taker, Sum;
    FileTotalBound(g.file, g.next);
    DealIsWorth(g);
  }

  lemma ScoresFit(g: Game)
    requires FileOk(g.file) && Valid(g) && Sound(g) && Moderate(g) && g.phase == Idle && g.next > 0
    ensures Fits(ScoreMsg(g.roundScores)) && Fits(TotalMsg(g.totalScores))
  {
    hide Valid, FileOk, Sum, Pow10;
    SumsBounded(g);
    forall s: Seat ensures 0 <= g.roundScores[s] <= 160 * |g.file| && 0 <= g.totalScores[s] <= 160 * |g.file| {
      AtMostSum(g.roundScores, s);
      AtMostSum(g.totalScores, s);
    }
  }

  lemma EntryFits(g: Game, s: Seat, i: nat)
    requires FileOk(g.file) && Valid(g) && Sound(g) && Moderate(g) && g.next > 0 && g.phase != Dealt
    requires |Rounds(g)| <= |Leaders(g)| && |g.deal| == 4 && |g.tricks| == |g.takers|
    requires Entry(g, s, i).ScoreMsg? || Entry(g, s, i).TotalMsg? ==> g.phase == Idle
    ensures Fits(Entry(g, s, i))
  {
    hide FileOk, HandsConserved, PackConserved, Void, NoRevoke, Scored, Fits, Sound, Moderate;
    DealFits(g, s);
    if i % 2 == 1 && i / 2 < |Rounds(g)| { TrickFits(g, s, i / 2); }
    if i % 2 == 0 && 0 < i / 2 <= |g.tricks| { TakenFits(g, i / 2 - 1); }
    if g.phase == Idle { ScoresFit(g); }
    hide TrickOut, TakenOut, DealOut, Rounds, Leaders;
  }

  // ---- Raw logs -------------------------------------------------------------------------------------------------

  /** A sent message is a WRONG or one of the story. */
  lemma {:induction false} CleanKeeps(log: seq<ServerMessage>, i: nat)
    requires i < |log| && !log[i].WrongMsg?
    ensures log[i] in Clean(log)
  {
    var n := |log| - 1;
    if i < n {
      CleanKeeps(log[..n], i);
    }
  }

  lemma ToldFits(st: State, s: Seat, i: nat)
    requires Reachable(st) && Moderate(st.g) && |st.threads| == 4 && i < |Clean(st.threads[s].log)|
    ensures Fits(Clean(st.threads[s].log)[i])
  {
    hide *;
    ReachableSoundGame(st);
    LogNotEmpty(st, s, i);
    LogIsStory(st, s);
    ReachableLog(st, s);
    ValidShape(st.g);
    NotJustDealt(st, s);
    ScoredIsIdle(st, s, i);
    EntryFits(st.g, s, i);
  }

  lemma ReachableSoundGame(st: State)
    requires Reachable(st)
    ensures Sound(st.g)
  {
    ReachableSound(st);
  }

  lemma ScoredIsIdle(st: State, s: Seat, i: nat)
    requires Reachable(st) && |st.threads| == 4 && i < |Clean(st.threads[s].log)|
    ensures var m := Clean(st.threads[s].log)[i]; m.ScoreMsg? || m.TotalMsg? ==> st.g.phase == Idle
  {
    ReachableLog(st, s);
    hide Reachable, Valid, FileOk, MainOk, Clean, StageAt;
    IdleIfWhole(st, s);
    var stage := StageAt(st, s);
    if !stage.Whole? {
      NoScoresYet(st.g, s, stage, i);
    }
    hide LogAt;
  }

  lemma NoScoresYet(g: Game, s: Seat, stage: Stage, i: nat)
    requires StageFits(g, stage) && !stage.Whole? && i < |LogAt(g, s, stage)|
    ensures var m := LogAt(g, s, stage)[i]; !m.ScoreMsg? && !m.TotalMsg?
  {
    match stage
    case Nothing =>
    case Told(n) => NoScoresUpto(g, s, n, i);
    case Asked(n) =>
      if i < |Upto(g, s, n)| { NoScoresUpto(g, s, n, i); }
      hide Upto;
    case Whole =>
  }

  lemma {:induction false} NoScoresUpto(g: Game, s: Seat, n: nat, i: nat)
    requires |g.deal| == 4 && n <= |g.tricks| == |g.takers| && i < |Upto(g, s, n)|
    ensures var m := Upto(g, s, n)[i]; !m.ScoreMsg? && !m.TotalMsg?
  {
    if n > 0 && i < |Upto(g, s, n - 1)| { NoScoresUpto(g, s, n - 1, i); }
    hide Rounds, Leaders, Seen;
  }

  /** In every reachable state, whatever a seat thread has sent in this deal can be read back from the bytes,
      message by message and unchanged: nothing is too long, nothing runs together. */
  lemma SentIsRead(st: State, s: Seat)
    requires Reachable(st) && Moderate(st.g) && |st.threads| == 4
    ensures AllFit(st.threads[s].log)
    ensures Frames(Stream(st.threads[s].log)) == Prints(st.threads[s].log)
  {
    hide *;
    var log := st.threads[s].log;
    forall i | 0 <= i < |log| ensures Fits(log[i]) { SentFits(st, s, i); }
    EachFits(log);
    StreamInverse(log);
  }

  lemma EachFits(ms: seq<ServerMessage>)
    requires forall i | 0 <= i < |ms| :: Fits(ms[i])
    ensures AllFit(ms)
  {
    hide Fits;
  }

  lemma SentFits(st: State, s: Seat, i: nat)
    requires Reachable(st) && Moderate(st.g) && |st.threads| == 4 && i < |st.threads[s].log|
    ensures Fits(st.threads[s].log[i])
  {
    var m, clean := st.threads[s].log[i], Clean(st.threads[s].log);
    if m.WrongMsg? {
      ReachableSound(st);
      hide Reachable, Sound;
      assert WrongsOk(st.threads[s]);
    } else {
      CleanKeeps(st.threads[s].log, i);
      hide Reachable, Clean, Fits, Moderate;
      var j :| 0 <= j < |clean| && clean[j] == m;
      ToldFits(st, s, j);
    }
  }

  // ---- And back: what a client writes ---------------------------------------------------------------------------

  /** The abstract acceptance test of the protocol is the one on texts: a thread of trick 1 to 13 takes up a text
      if and only if it is destined and the text is TRICK, its trick number and a legal card. */
  lemma TextTaken(g: Game, s: Seat, t: Thread, text: string)
    requires |g.hands| == 4 && 1 <= t.current <= 13
    ensures (TrickClientCheck(text) && Takes(g, s, t, Said(text)))
            <==> t.destined && exists c :: Legal(g.hands[s], g.table, c) && text == TrickText(t.current, [c])
  {
    AcceptedExactly(text, t.current, g.hands[s], g.table);
    hide TrickClientCheck, Said, Legal, TrickText;
  }
}
