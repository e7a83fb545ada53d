/** The concurrent deal protocol of serwer.cpp as a step relation: the main thread (`run_game`, `run_deal`,
    `barrier`) and one thread per seat (`client_poll`, `parse_message`), interleaved at every pipe operation
    and every locked section; a poll that finds only a token is one step with the read of it, since no other
    thread reads that pipe.  All four seats stay; their clients send arbitrary TRICK-shaped messages. */
module Protocol {
  import opened Cards
  import opened GameModel
  import opened Client

  /** One-letter tokens from the server to a seat thread. */
  datatype Token = CardPlay | DealToken | TakenToken | ScoresToken | BarrierAsk | BarrierEnd

  /** Tokens back: CARD_PLAY, and the BARRIER_RESPONSE of the thread that arrives last. */
  datatype Notice = Played | Arrived

  // ---- Seat threads -----------------------------------------------------------------------------

  /** Where `parse_message` returns to. */
  datatype After = ToServe | ToTop | ToDrainTop | ToDrainEnd

  /** Control locations of `client_poll`. */
  datatype Pc =
    | Top                                  // locked section 897-900
    | DrainTop                             // loop 903-911
    | Poll                                 // 914-923
    | Parse(m: Input, after: After)        // entering parse_message
    | Notify(after: After)                 // accepted, CARD_PLAY not yet written (844)
    | Repeat(after: After)                 // time has run out, the table not yet copied (928-940, 980-993)
    | Serve                                // about to read a token (996)
    | Handle(token: Token)                 // token read, not yet acted upon
    | Wake                                 // fourth at the barrier, wake-up not yet written (1089-1093)
    | DrainEnd                             // loop 1101-1109

  datatype Thread = Thread(
    pc: Pc,
    destined: bool,                        // b_was_destined_to_play
    barrier: bool,                         // b_is_barrier
    current: int,                          // current_trick
    deferred: seq<Input>,                  // barrier_messages[seat]
    inbox: seq<Token>,                     // server_write_pipes[seat]
    outbox: seq<Notice>,                   // server_read_pipes[seat]
    log: seq<ServerMessage>,               // history: sent to the client since the deal was loaded
    received: seq<Input>,                  // history: read from the client
    parsed: seq<Input>)                    // history: handed to parse_message

  // ---- The main thread --------------------------------------------------------------------------

  datatype MainPc =
    | NextDeal                             // loop head of run_game, then 521-530
    | OpenDeal                             // 356-361
    | Tell(token: Token, to: Seat)         // the five loops that write one token to each seat
    | TrickTop                             // 381-399
    | GiveTurn(i: Seat)                    // 402-404
    | CallTurn(i: Seat)                    // 405-406
    | AwaitCard(i: Seat)                   // 409-469
    | ScoreTrick                           // 473-482
    | ScoreDeal                            // 495-498
    | BarrierTop                           // 225-229
    | BarrierWait                          // 247-295
    | BarrierCheck                         // 296-299
    | Finished                             // no deal left
    | Broken                               // a branch that closes the server, or a table without four cards

  /** Which call of `barrier` comes next: of start_game, after a first or later trick, or after SCORES. */
  datatype Round = Joining | First | Later | Closing

  datatype Main = Main(pc: MainPc, round: Round, trick: nat, beginning: Seat)

  datatype State = State(
    g: Game,                               // the fields that hold the game
    main: Main,
    ongoing: bool,                         // b_is_barrier_ongoing
    occupied: int,
    turn: Option<Seat>,                    // player_turn, None for "x"
    threads: seq<Thread>)

  /** What the environment decides: which pipe `poll` reports, what a client sends, when time runs out. */
  datatype Choice = Go | FromClient(m: Input) | Resend | Timeout

  datatype Action = MainStep(from: Seat) | SeatStep(s: Seat, choice: Choice)

  // ---- Steps of a seat thread ----------------------------------------------------------------------

  function Return(after: After): Pc {
    match after
    case ToServe => Serve
    case ToTop => Top
    case ToDrainTop => DrainTop
    case ToDrainEnd => DrainEnd
  }

  /** The acceptance test of `parse_message` on a decoded message. */
  predicate Takes(g: Game, s: Seat, t: Thread, m: Input)
    requires |g.hands| == 4
  {
    t.destined && m.number == t.current && Legal(g.hands[s], g.table, m.card)
  }

  predicate ThreadEnabled(t: Thread, choice: Choice) {
    match t.pc
    case Poll => (match choice
                  case Go => t.inbox != []
                  case Resend => t.inbox != [] && t.destined
                  case Timeout => t.inbox == [] && t.destined
                  case FromClient(_) => true)
    case Serve => choice.Go? && t.inbox != []
    case _ => choice.Go?
  }

  /** What a step of thread `t` of seat `s` makes of the thread itself. */
  function ThreadNext(g: Game, ongoing: bool, occupied: int, s: Seat, t: Thread, choice: Choice): Thread
    requires |g.hands| == 4 && ThreadEnabled(t, choice)
  {
    match t.pc
    case Top => t.(current := g.trickNumber, barrier := t.barrier || ongoing, pc := DrainTop)
    case DrainTop =>
      if !t.barrier && t.deferred != [] then
        t.(deferred := t.deferred[1..], pc := Parse(t.deferred[0], ToDrainTop))
      else t.(pc := Poll)
    case Poll => (
      match choice
      case FromClient(m) =>
        var r := t.(received := t.received + [m]);
        if t.barrier then r.(deferred := t.deferred + [m], pc := if t.inbox != [] then Serve else Top)
        else r.(pc := Parse(m, if t.inbox != [] then ToServe else ToTop))
      case Go => t.(pc := Handle(t.inbox[0]), inbox := t.inbox[1..])
      case Resend => t.(pc := Repeat(ToServe))
      case Timeout => t.(pc := if t.barrier then Top else Repeat(ToTop)))
    case Repeat(after) => t.(pc := Return(after), log := t.log + [TrickMsg(t.current, g.table)])
    case Parse(m, after) =>
      var r := t.(parsed := t.parsed + [m]);
      if Takes(g, s, t, m) then r.(pc := Notify(after))
      else r.(pc := Return(after), log := t.log + [WrongMsg(t.current)])
    case Notify(after) => t.(outbox := t.outbox + [Played], destined := false, pc := Return(after))
    case Serve => t.(pc := Handle(t.inbox[0]), inbox := t.inbox[1..])
    case Handle(token) => (
      match token
      case CardPlay =>
        t.(current := g.trickNumber, destined := true, log := t.log + [TrickMsg(g.trickNumber, g.table)], pc := Top)
      case DealToken => t.(log := t.log + [DealMsg(g.kind, g.lastTaker, g.hands[s])], pc := Top)
      case TakenToken => t.(log := t.log + [TakenMsg(t.current, g.table, g.lastTaker)], pc := Top)
      case ScoresToken => t.(log := t.log + [ScoreMsg(g.roundScores), TotalMsg(g.totalScores)], pc := Top)
      case BarrierAsk => t.(barrier := true, pc := if occupied + 1 == 4 then Wake else Top)
      case BarrierEnd => t.(barrier := false, pc := DrainEnd))
    case Wake => t.(outbox := t.outbox + [Arrived], pc := Top)
    case DrainEnd =>
      if t.deferred != [] then t.(deferred := t.deferred[1..], pc := Parse(t.deferred[0], ToDrainEnd))
      else t.(pc := Top)
  }

  /** A step that takes up a card. */
  predicate TakesCard(g: Game, s: Seat, t: Thread)
    requires |g.hands| == 4
  {
    t.pc.Parse? && Takes(g, s, t, t.pc.m)
  }

  function SeatNext(st: State, s: Seat, choice: Choice): State
    requires |st.threads| == |st.g.hands| == 4 && ThreadEnabled(st.threads[s], choice)
  {
    var t := st.threads[s];
    var r := st.(threads := st.threads[s := ThreadNext(st.g, st.ongoing, st.occupied, s, t, choice)]);
    if TakesCard(st.g, s, t) then r.(g := DoPlay(st.g, s, t.pc.m.card), turn := None)
    else if t.pc == Handle(BarrierAsk) then r.(occupied := st.occupied + 1)
    else r
  }

  // ---- Steps of the main thread --------------------------------------------------------------------

  function Send(threads: seq<Thread>, s: Seat, token: Token): seq<Thread>
    requires |threads| == 4
  {
    threads[s := threads[s].(inbox := threads[s].inbox + [token])]
  }

  function Receive1(threads: seq<Thread>, s: Seat): seq<Thread>
    requires |threads| == 4 && threads[s].outbox != []
  {
    threads[s := threads[s].(outbox := threads[s].outbox[1..])]
  }

  /** A new deal starts a new log for every seat. */
  function NewLogs(threads: seq<Thread>): seq<Thread>
    requires |threads| == 4
  {
    [threads[0].(log := []), threads[1].(log := []), threads[2].(log := []), threads[3].(log := [])]
  }

  /** The control location after the last of four writes. */
  function AfterTell(token: Token, round: Round): MainPc {
    match token
    case DealToken => TrickTop
    case TakenToken => BarrierTop
    case ScoresToken => BarrierTop
    case BarrierAsk => BarrierWait
    case CardPlay => Broken
    case BarrierEnd =>
      match round
      case Joining => Broken
      case First => NextDeal
      case Later => TrickTop
      case Closing => ScoreDeal
  }

  /** What follows a completed barrier: the next deal, the next trick, or the scores. */
  function NextRound(m: Main): (Round, nat) {
    match m.round
    case Joining => (First, 0)
    case Closing => (First, 0)
    case _ => if m.trick + 1 < 13 then (Later, m.trick + 1) else (Closing, m.trick + 1)
  }

  predicate MainEnabled(st: State, from: Seat)
    requires |st.threads| == 4
  {
    match st.main.pc
    case AwaitCard(_) => st.threads[from].outbox != []
    case BarrierWait => st.threads[from].outbox != []
    case Finished => false
    case Broken => false
    case _ => true
  }

  function MainNext(st: State, from: Seat): State
    requires |st.threads| == |st.g.hands| == |st.g.scores| == |st.g.totalScores| == 4
    requires MainEnabled(st, from)
  {
    var m := st.main;
    match m.pc
    case NextDeal =>
      if st.g.next < |st.g.file| then
        st.(g := DoLoad(st.g), threads := NewLogs(st.threads), main := m.(pc := OpenDeal))
      else st.(main := m.(pc := Finished))
    case OpenDeal =>
      if 0 < st.g.next <= |st.g.file| then st.(g := DoOpen(st.g), main := m.(pc := Tell(DealToken, 0)))
      else st.(main := m.(pc := Broken))
    case Tell(token, to) =>
      st.(threads := Send(st.threads, to, token),
          main := m.(pc := if to < 3 then Tell(token, to + 1) else AfterTell(token, m.round)))
    case TrickTop => st.(g := DoBegin(st.g), main := m.(pc := GiveTurn(0), beginning := st.g.lastTaker))
    case GiveTurn(i) => st.(turn := Some(Place(m.beginning, i)), main := m.(pc := CallTurn(i)))
    case CallTurn(i) =>
      st.(threads := Send(st.threads, Place(m.beginning, i), CardPlay), main := m.(pc := AwaitCard(i)))
    case AwaitCard(i) =>
      var good := st.threads[from].outbox[0] == Played && from == Place(m.beginning, i);
      st.(threads := Receive1(st.threads, from),
          main := m.(pc := if !good then Broken else if i < 3 then GiveTurn(i + 1) else ScoreTrick))
    case ScoreTrick =>
      if |st.g.table| == 4 then
        st.(g := DoCloseTrick(st.g, m.beginning, m.trick + 1), main := m.(pc := Tell(TakenToken, 0)))
      else st.(main := m.(pc := Broken))
    case ScoreDeal => st.(g := DoCloseDeal(st.g), main := m.(pc := Tell(ScoresToken, 0)))
    case BarrierTop => st.(ongoing := true, occupied := 0, main := m.(pc := Tell(BarrierAsk, 0)))
    case BarrierWait =>
      st.(threads := Receive1(st.threads, from),
          main := m.(pc := if st.threads[from].outbox[0] == Arrived then BarrierCheck else Broken))
    case BarrierCheck =>
      if st.occupied < 4 then st.(main := m.(pc := BarrierWait))
      else
        var (round, trick) := NextRound(m);
        st.(ongoing := if st.occupied == 4 then false else st.ongoing,
            main := m.(pc := Tell(BarrierEnd, 0), round := round, trick := trick))
  }

  // ---- Runs -----------------------------------------------------------------------------------------

  predicate Typed(st: State) {
    && |st.threads| == |st.g.hands| == |st.g.scores| == |st.g.totalScores| == 4
    && forall i | 0 <= i < |st.g.file| :: |st.g.file[i].hands| == 4
  }

  predicate Enabled1(st: State, a: Action)
    requires Typed(st)
  {
    match a
    case MainStep(from) => MainEnabled(st, from)
    case SeatStep(s, choice) => ThreadEnabled(st.threads[s], choice)
  }

  function Next(st: State, a: Action): (r: State)
    requires Typed(st) && Enabled1(st, a)
    ensures Typed(r)
  {
    match a
    case MainStep(from) => MainNext(st, from)
    case SeatStep(s, choice) => SeatNext(st, s, choice)
  }

  /** All a step of the main thread does to the seat threads: it writes a token, reads a notice, or starts new logs. */
  function ThreadsAfter(st: State, from: Seat): seq<Thread>
    requires Typed(st) && MainEnabled(st, from)
  {
    if st.main.pc.NextDeal? && st.g.next < |st.g.file| then NewLogs(st.threads)
    else if st.main.pc.Tell? then Send(st.threads, st.main.pc.to, st.main.pc.token)
    else if st.main.pc.CallTurn? then Send(st.threads, Place(st.main.beginning, st.main.pc.i), CardPlay)
    else if st.main.pc.AwaitCard? || st.main.pc.BarrierWait? then Receive1(st.threads, from)
    else st.threads
  }

  lemma ThreadsStep(st: State, from: Seat)
    requires Typed(st) && MainEnabled(st, from)
    ensures MainNext(st, from).threads == ThreadsAfter(st, from)
  {
    hide DoCloseTrick, DoCloseDeal, DoLoad, DoOpen, DoBegin, Send, Receive1, NewLogs;
  }

  /** All four clients have just taken their seats and the server enters its first barrier; what the clients
      may already have sent, and whether a thread believes in a running barrier, is open. */
  ghost predicate Initial(st: State) {
    && |st.threads| == 4 && FileOk(st.g.file) && Blank(st.g)
    && st.main == Main(BarrierTop, Joining, 0, 0) && !st.ongoing && st.turn == None
    && forall s: Seat :: Idling(st.threads[s])
  }

  predicate Idling(t: Thread) {
    && t.pc == Top && !t.destined && t.inbox == [] && t.outbox == []
    && t.deferred == [] && t.log == [] && t.received == [] && t.parsed == []
  }

  predicate IsRun(st: State, actions: seq<Action>)
    requires Typed(st)
    decreases |actions|
  {
    actions == [] || (Enabled1(st, actions[0]) && IsRun(Next(st, actions[0]), actions[1..]))
  }

  function RunOf(st: State, actions: seq<Action>): (r: State)
    requires Typed(st) && IsRun(st, actions)
    ensures Typed(r)
    decreases |actions|
  {
    if actions == [] then st else RunOf(Next(st, actions[0]), actions[1..])
  }
}
