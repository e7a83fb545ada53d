/** The inductive invariant of the protocol: tokens, turns and barriers. */
module Control {
  import opened Cards
  import opened GameModel
  import opened Client
  import opened Protocol

  // ---- The tokens of one barrier round ---------------------------------------------------------------

  /** What the server writes to every seat between one completed barrier and the next. */
  function Script(round: Round): seq<Token> {
    match round
    case Joining => [BarrierAsk]
    case First => [BarrierEnd, DealToken, CardPlay, TakenToken, BarrierAsk]
    case Later => [BarrierEnd, CardPlay, TakenToken, BarrierAsk]
    case Closing => [BarrierEnd, ScoresToken, BarrierAsk]
  }

  /** Place of the turn token in the script. */
  function PlayAt(round: Round): nat {
    if round == First then 2 else 1
  }

  function IndexOf(round: Round, token: Token): nat {
    match token
    case BarrierEnd => 0
    case DealToken => 1
    case ScoresToken => 1
    case CardPlay => PlayAt(round)
    case TakenToken => PlayAt(round) + 1
    case BarrierAsk => |Script(round)| - 1
  }

  /** How much of the script the main thread has written to seat `s`. */
  function Sent(m: Main, s: Seat): nat {
    match m.pc
    case NextDeal => 1
    case OpenDeal => 1
    case Tell(token, to) => IndexOf(m.round, token) + if s < to then 1 else 0
    case TrickTop => PlayAt(m.round)
    case GiveTurn(i) => PlayAt(m.round) + if Pos(m.beginning, s) < i then 1 else 0
    case CallTurn(i) => PlayAt(m.round) + if Pos(m.beginning, s) < i then 1 else 0
    case AwaitCard(i) => PlayAt(m.round) + if Pos(m.beginning, s) <= i then 1 else 0
    case ScoreTrick => PlayAt(m.round) + 1
    case ScoreDeal => 1
    case BarrierTop => |Script(m.round)| - 1
    case BarrierWait => |Script(m.round)|
    case BarrierCheck => |Script(m.round)|
    case Finished => 1
    case Broken => 0
  }

  /** Tokens written to a seat and not acted upon. */
  function Queue(t: Thread): seq<Token> {
    if t.pc.Handle? then [t.pc.token] + t.inbox else t.inbox
  }

  /** Tokens of the round the thread has acted upon. */
  function Acted(m: Main, t: Thread, s: Seat): int {
    Sent(m, s) - |Queue(t)|
  }

  /** FIFO order: what is outstanding is the end of what was sent. */
  predicate InOrder(m: Main, t: Thread, s: Seat) {
    && 0 <= Acted(m, t, s) && Sent(m, s) <= |Script(m.round)|
    && Queue(t) == Script(m.round)[Acted(m, t, s)..Sent(m, s)]
  }

  // ---- Turn tokens -----------------------------------------------------------------------------------

  /** The seat whose card the main thread is waiting for. */
  predicate Awaited(m: Main, s: Seat) {
    m.pc.AwaitCard? && s == Place(m.beginning, m.pc.i)
  }

  /** Accepted, but the server has not read it yet. */
  predicate HasPlayed(t: Thread) {
    t.pc.Notify? || t.outbox == [Played]
  }

  /** CARD_PLAY tokens under way, threads destined to play, and accepted plays on their way back. */
  function TurnTokens(t: Thread): nat {
    multiset(Queue(t))[CardPlay] + (if t.destined then 1 else 0) + multiset(t.outbox)[Played]
  }

  /** Where a turn can be: on its way to the thread, with it, or on its way back. */
  function TurnMarks(t: Thread): nat {
    (if CardPlay in Queue(t) then 1 else 0) + (if t.destined then 1 else 0) + (if Played in t.outbox then 1 else 0)
  }

  // ---- The barrier -------------------------------------------------------------------------------------

  /** The thread has acted on the whole script, the barrier token included. */
  predicate HasArrived(m: Main, t: Thread, s: Seat) {
    Acted(m, t, s) == |Script(m.round)|
  }

  function Count(b0: bool, b1: bool, b2: bool, b3: bool): nat {
    (if b0 then 1 else 0) + (if b1 then 1 else 0) + (if b2 then 1 else 0) + (if b3 then 1 else 0)
  }

  function ArrivedCount(st: State): nat
    requires |st.threads| == 4
  {
    Count(HasArrived(st.main, st.threads[0], 0), HasArrived(st.main, st.threads[1], 1),
          HasArrived(st.main, st.threads[2], 2), HasArrived(st.main, st.threads[3], 3))
  }

  /** A wake-up to be written, or written and not read. */
  predicate Waking(t: Thread) {
    t.pc.Wake? || t.outbox == [Arrived]
  }

  function WakeCount(st: State): nat
    requires |st.threads| == 4
  {
    Count(Waking(st.threads[0]), Waking(st.threads[1]), Waking(st.threads[2]), Waking(st.threads[3]))
  }

  predicate InBarrier(m: Main) {
    (m.pc.Tell? && m.pc.token == BarrierAsk) || m.pc.BarrierWait? || m.pc.BarrierCheck?
  }

  // ---- The invariant ------------------------------------------------------------------------------------

  /** The main thread's location and the state of the game it leaves behind. */
  ghost predicate MainOk(m: Main, g: Game) {
    && (match m.round
        case Joining => m.trick == 0 && g.next == 0
        case First => m.trick == 0
        case Later => 1 <= m.trick <= 12
        case Closing => m.trick == 13)
    && (match m.pc
        case NextDeal => m.round == First && g.phase == Idle
        case OpenDeal => m.round == First && g.phase == Dealt
        case Tell(token, _) => TellOk(m, g, token)
        case TrickTop => InTrick(m) && Between(g, m.trick)
        case GiveTurn(i) => Playing(m, g) && |g.table| == i
        case CallTurn(i) => Playing(m, g) && |g.table| == i
        case AwaitCard(i) => Playing(m, g) && i <= |g.table| <= i + 1
        case ScoreTrick => Playing(m, g) && |g.table| == 4
        case ScoreDeal => m.round == Closing && Between(g, 13)
        case BarrierTop => AtBarrier(m, g)
        case BarrierWait => AtBarrier(m, g)
        case BarrierCheck => AtBarrier(m, g)
        case Finished => m.round == First && g.phase == Idle && g.next == |g.file|
        case Broken => false)
  }

  predicate InTrick(m: Main) {
    m.round == First || m.round == Later
  }

  predicate Between(g: Game, n: nat) {
    g.phase == Lead && g.trickNumber == n
  }

  predicate Playing(m: Main, g: Game) {
    InTrick(m) && g.phase == Trick && g.trickNumber == m.trick + 1 && m.beginning == g.lastTaker
  }

  /** Before the next deal is read from the file. */
  predicate Unloaded(pc: MainPc) {
    pc.NextDeal? || pc.Finished? || (pc.Tell? && pc.token == BarrierEnd)
  }

  /** Arriving at a barrier call of the given round. */
  predicate AtBarrier(m: Main, g: Game) {
    match m.round
    case Joining => g.phase == Idle
    case Closing => g.phase == Idle && g.next > 0
    case _ => Between(g, m.trick + 1)
  }

  predicate TellOk(m: Main, g: Game, token: Token) {
    match token
    case DealToken => m.round == First && Between(g, 0)
    case TakenToken => InTrick(m) && Between(g, m.trick + 1)
    case ScoresToken => m.round == Closing && AtBarrier(m, g)
    case BarrierAsk => AtBarrier(m, g)
    case CardPlay => false
    case BarrierEnd => (match m.round
                        case Joining => false
                        case First => g.phase == Idle
                        case _ => Between(g, m.trick))
  }

  /** In a turn of the loop whose poll found a token. */
  predicate ToServeIn(t: Thread) {
    || t.pc.Serve?
    || ((t.pc.Parse? || t.pc.Notify? || t.pc.Repeat?) && t.pc.after == ToServe)
  }

  /** A thread against the main thread's location. */
  predicate ThreadOk(m: Main, g: Game, t: Thread, s: Seat) {
    && InOrder(m, t, s)
    && (t.outbox == [] || t.outbox == [Played] || t.outbox == [Arrived])
    && TurnMarks(t) == (if Awaited(m, s) then 1 else 0)
    && (t.pc.Notify? || t.pc.Repeat? ==> t.destined)
    && (ToServeIn(t) ==> t.inbox != [])
    && (InTrick(m) && Acted(m, t, s) > PlayAt(m.round) ==> t.current == g.trickNumber)
    && (Waking(t) ==> InBarrier(m) && HasArrived(m, t, s))
    && (t.pc.Wake? ==> t.outbox == [])
    && (!InBarrier(m) && Acted(m, t, s) > 0 ==> !t.barrier)
  }

  /** While a card is awaited the table and `player_turn` tell whether it has been accepted. */
  predicate TableOk(st: State)
    requires |st.threads| == 4
  {
    match st.main.pc
    case AwaitCard(i) =>
      var s := Place(st.main.beginning, i);
      && |st.g.table| == i + (if HasPlayed(st.threads[s]) then 1 else 0)
      && st.turn == (if HasPlayed(st.threads[s]) then None else Some(s))
    case CallTurn(i) => st.turn == Some(Place(st.main.beginning, i))
    case _ => true
  }

  /** `occupied` counts the arrived seats; the one wake-up exists exactly when all four have arrived and the
      main thread has not been woken. */
  predicate BarrierOk(st: State)
    requires |st.threads| == 4
  {
    && (st.ongoing <==> InBarrier(st.main))
    && (InBarrier(st.main) ==> st.occupied == ArrivedCount(st))
    && WakeCount(st) == (if InBarrier(st.main) && !st.main.pc.BarrierCheck? && st.occupied == 4 then 1 else 0)
    && (st.main.pc.BarrierCheck? ==> st.occupied == 4)
  }

  ghost predicate Inv(st: State) {
    && Typed(st) && FileOk(st.g.file) && Valid(st.g) && MainOk(st.main, st.g)
    && (forall s: Seat :: ThreadOk(st.main, st.g, st.threads[s], s))
    && TableOk(st) && BarrierOk(st)
  }
}
