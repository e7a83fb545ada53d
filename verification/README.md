# Kierki: a verified model of the game server, its automatic client and their protocol

Kierki is a four-player trick-taking card game. A multithreaded server plays a file of deals with four
clients over a line-based text protocol. This project models five connected parts and proves what they
promise each other.

* **The sequential game** (`Cards`, `Points`, `GameModel`, `Conduct`, `Server`). Hands, table, recorded tricks,
  taker and scores as the server's locked sections change them. `GameModel` gives the sections as moves on a
  value, `Conduct` proves what every run of moves keeps, and the class `Server.Serwer` performs them in place,
  with the nested loops of `run_deal` fed by the clients' messages. The class `Points.PointsCalculator` keeps
  the rotated arrays and loops of the original and is proved against a declarative winner and weights of cards.
* **The concurrent deal protocol** (`Protocol`, `Control`, `ControlSeat`, `ControlMain`, `Safety`, `Progress`,
  `Deferral`, `Logs`, `LogSteps`, `Turns`, `Agreement`). The main thread and four seat threads as one step relation,
  interleaved at every pipe operation and every locked section, with FIFO queues for the pipes and arbitrary
  messages from the clients. An inductive invariant gives refinement of the sequential game, unreachability of
  the branches that close the server, conservation of turn tokens, freedom from deadlock and livelock, order of
  deferred input, the answer to every message and timeout, and the exact log of every seat.
* **The barrier under departures** (`Barrier`, `Departures`). `barrier` against seat threads that may leave once they
  have read their barrier token, over any number of rounds; and exactly when a wake-up can be left behind.
* **The client's view** (`Client`, `Match`, `Players`, `WholeGame`). The automatic client's hand, rebuilt from DEAL,
  TRICK and TAKEN, by its strategy, by resynchronisation and by the replay to a reconnecting player. Four automatic
  clients play the whole file, with the sequential game step by step, and with the concurrent server under any
  interleaving; whatever was repeated before, the first answer to a trick is a legal card.
* **The wire** (`Text`, `Messages`, `Codec`, `Acceptance`, `Wire`, `Delivery`). Printers, checks, scanners, the
  client's decoder, `parse_message` on texts, and the reading and writing loops on sockets. `Delivery` joins the
  wire to the concurrent server: whatever a thread has sent is read back unchanged.

Parts that only compute are functions with lemmas; parts that update fields or run loops are classes and methods
whose postconditions tie the new state to those functions.

## What is assumed

* Each deal of the game file has a trick type 1 to 7 and deals the 52 cards once, thirteen to a seat (`FileOk`).
* Pipes are reliable FIFO queues. A pipe read or write and a locked section are the atomic steps.
* In `Protocol` all four seats stay; what their clients send, and when time runs out, is arbitrary. Messages are
  TRICK-shaped; `Acceptance` covers every other text. The automatic client keeps to that only as long as it has
  cards to answer with: see the last point below.
* In `Barrier` a round starts with nothing of an earlier round on its way to the server, and a thread leaves only
  after acting on its barrier token.

## Where the code differs from what it seems meant to do

* `no_seventh_last_trick` adds 10 once per loop turn, so trick 7 and trick 13 cost 40 each where 10 was probably
  meant. All totals here (80 for type 6, 160 for type 7) follow the code.
* DEAL replaces the client's hand but does not clear its list of played cards. `Client.DealResets` says exactly
  when the view is then right, and `Client.DealKeepsPending` shows for every two hands dealt how it goes wrong.
* A departure can leave a wake-up behind that nothing in `barrier` reads; the next reader of that pipe,
  `run_deal`, would take it for an invalid message. It may be a second one, after a complete four broke up
  (`Departures.StaleWakeUp`), or the first and only one, after the server let go without reading any
  (`Departures.UnreadWakeUp`). Every departure in every reachable state of a round can do it, though nobody else
  leaves (`Departures.DepartureLeavesWakeUp`), so a round is certain to leave none behind if and only if no thread
  leaves it (`Departures.SafeIffNobodyLeaves`).
* `read_from_socket` looks for the line end before it looks at the length, so it accepts one byte more than
  `MAX_BUFFER_SIZE`. The format needs exactly that byte for scores of twenty digits (`Wire.BoundReached`); the
  server's own scores are 32-bit and far shorter.
* WRONG sent before the first trick of a deal carries number 0, which the client's check does not know:
  `Delivery.WrongZero` for every deal, `Delivery.WrongZeroSent` for a run from the start.
* A repeated TRICK makes the automatic client send another card, and with an empty hand a TRICK without a card,
  which the server's check refuses, closing the connection. In trick n an answer keeps to the grammar for exactly
  14 - n copies (`Players.AskedTooOften`): in the last trick the first repetition is one too many.

## Model

| member | source | states |
|---|---|---|
| Points.WinnerWins | points_calculator.cpp:37-55 | the winning place found by a running maximum holds the highest card of the led suit, the first of equals |
| Points.TakerIsHighest | points_calculator.cpp:37-55 | among four different cards a seat takes the trick if and only if its card is of the led suit and beats every other card of that suit |
| Points.TakerRotates | points_calculator.cpp:37-55 | moving the starter round the table moves the taker by as much |
| Points.PointsCalculator.constructor | points_calculator.cpp:3-22 | the rotated arrays show, for every seat, suit and figure of the card that seat played |
| Points.PointsCalculator.FindTaker | points_calculator.cpp:37-55 | the loop over the rotated arrays returns the seat of the winning card |
| Points.PointsCalculator.NoHearts | points_calculator.cpp:62-71 | as many points as the trick has hearts |
| Points.PointsCalculator.NoQueens | points_calculator.cpp:73-82 | five times as many as it has queens |
| Points.PointsCalculator.NoMisters | points_calculator.cpp:84-93 | two times as many as it has jacks and kings |
| Points.PointsCalculator.NoHeartsKing | points_calculator.cpp:95-104 | eighteen times as many as it has kings of hearts |
| Points.PointsCalculator.NoTricks | points_calculator.cpp:57-60 | one point for every trick |
| Points.PointsCalculator.NoSeventhLastTrick | points_calculator.cpp:106-116 | forty points for the trick whose number is 7 or 13, none for any other, as coded |
| Points.PointsCalculator.Bandit | points_calculator.cpp:118-128 | the sum of the six other rules |
| Points.PointsCalculator.CalculatePoints | points_calculator.cpp:24-35 | taker and points for each trick type, -1 for a type out of range |
| Points.WeightOfBag | points_calculator.cpp:62-104 | what a pile of cards costs depends only on which cards are in it |
| Points.DeckWeight | points_calculator.cpp:57-128 | what the whole deck costs under each trick type |
| Cards.Find | serwer.cpp:794-795 | `find` returns the first position of the card, or the length when it is absent; erasing there is erasing the card |
| Server.Serwer.LoadDeal | serwer.cpp:518-530 | reading a deal sets hands, dealt hands and starter and empties the records, and changes nothing else |
| Server.Serwer.OpenDeal | serwer.cpp:356-378 | opening a deal sets type, first leader, trick number 0 and zero scores |
| Server.Serwer.BeginTrick | serwer.cpp:381-384 | clears the table and counts the trick |
| Server.Serwer.ParseMessage | serwer.cpp:767-870 | accepts exactly the running trick's number with a legal card from a destined seat; otherwise nothing changes |
| Server.Serwer.CloseTrick | serwer.cpp:472-482 | records the trick, its taker and its points; a type out of range costs the taker -1 |
| Server.Serwer.CloseDeal | serwer.cpp:494-498 | adds to each seat's own total what that seat took in the deal, and keeps that as its round score |
| Server.Serwer.RunDeal | serwer.cpp:354-509 | on any messages in any order the game stays valid; a finished deal took 52 accepted cards, adds its fixed total, and adds to each seat what that seat took |
| Conduct.MoveValid | serwer.cpp:354-509 | every locked section keeps the invariant of the game |
| Conduct.AllPlayed | serwer.cpp:379-492 | after thirteen tricks the recorded cards are the whole deck and the hands are empty |
| Conduct.PackOfSuits | serwer.cpp:516-530 | well-formed game files exist: four suits dealt to four seats |
| Conduct.TallySum | serwer.cpp:475-479 | what the four seats collected adds up to the worth of the tricks |
| Conduct.DealIsWorth | serwer.cpp:472-498 | a finished deal is worth 13, 13, 20, 16, 18, 80 or 160 whatever was played |
| Conduct.CardConservation | serwer.cpp:525-529 | in every reachable state a dealt hand is the hand held plus the cards played by that seat, its size is 13 less those, and hands and tricks hold each card once |
| Conduct.NoRevokeEver | serwer.cpp:796-835 | a seat that leaves the led suit plays no card of it in any later trick of the deal |
| Conduct.ScoreConservation | serwer.cpp:472-498 | after any sequence of deals the totals add up to the fixed totals of the deals, at most 160 a deal, and the round scores to that of the last |
| Conduct.PointsSoFar | points_calculator.cpp:57-128 | in every reachable state with n tricks recorded the running scores sum to n under type 1; to 0, 40 from the seventh trick on and 80 at the thirteenth under type 6; to the weight of the cards taken under types 2 to 5; to all of that under type 7 |
| Conduct.TotalsStep | serwer.cpp:494-498 | of all moves only the end of a deal changes the totals, and it adds to each seat what that seat took |
| Conduct.TotalsPerSeat | serwer.cpp:494-498 | after any run each seat's total is the sum of what that seat took in the deals played |
| ControlSeat.SeatKeeps | serwer.cpp:872-1129 | every step of a seat thread keeps the protocol invariant |
| ControlMain.MainKeeps | serwer.cpp:354-509 | every step of the main thread keeps the protocol invariant |
| Safety.StartExists | serwer.cpp:5-17 | the server can start with any well-formed game file, so the statements on all runs are about some |
| Safety.RunRefines | serwer.cpp:354-509 | a run from any state of the invariant plays a run of the sequential game |
| Safety.Refinement | serwer.cpp:767-870 | every interleaving of the five threads from the start plays a run of the sequential game, and the shared fields are the state it ends in |
| Safety.TotalsOfRun | serwer.cpp:494-498 | the same after any interleaving of the five threads |
| Safety.NeverBroken | serwer.cpp:432-459 | no branch that closes the server is taken, and the calculator always gets four cards |
| Safety.OneNotice | serwer.cpp:247-295 | at most one notice is on its way to the server, and it is the one expected |
| Safety.OneTurnToken | serwer.cpp:400-470 | counted with multiplicity, turn tokens, destined threads and accepted plays under way are one while a card is awaited, none otherwise |
| Safety.TurnsInOrder | serwer.cpp:1004-1018 | a destined thread is the one in turn and knows the running trick; the i-th card of the table was dealt to seat (beginning+i)%4 |
| Safety.BarrierComplete | serwer.cpp:296-300 | the barrier lets go only with all four arrived, no token and no wake-up left |
| Safety.BarrierCounts | serwer.cpp:1081-1097 | `occupied` is the number of arrived threads; the wake-up exists exactly when all four have arrived and until it is read |
| Safety.NeverStuck | serwer.cpp:872-1129 | in every reachable state a thread can step, or the file is played, or only the client in turn is waited for |
| Safety.WaitingAnswered | serwer.cpp:767-870 | that client's legal card is then taken up in two steps |
| Progress.StepEnergy | serwer.cpp:872-1129 | each step that needs neither client nor clock lowers a measure |
| Progress.InternalStepsBounded | serwer.cpp:872-1129 | between messages and timeouts only boundedly many steps exist |
| Progress.StepsBounded | serwer.cpp:872-1129 | from the start at most 10500 internal steps a deal, 1058 more, and eight for each message or timeout |
| Deferral.InOrderOnce | serwer.cpp:901-912 | every client message is parsed once, in the order received, never while the barrier flag is set, and none stays put aside outside a barrier |
| Logs.AskedSees | serwer.cpp:1004-1018 | a seat that is asked sees exactly the cards of the seats before it |
| Logs.DealReads | serwer.cpp:1020-1035 | DEAL, though no barrier protects it, shows the hand as dealt and the first leader |
| Logs.TakenReads | serwer.cpp:1042-1056 | TAKEN shows the trick just closed although it is read later |
| Logs.RepeatReads | serwer.cpp:925-994 | a repeated TRICK is for the running trick of the seat in turn |
| Turns.AskedIsFree | serwer.cpp:895-900 | the seat in turn is not held at a barrier, has no token waiting, and knows the running trick |
| Turns.AsksAgain | serwer.cpp:926-941 | in every reachable state, when time runs out for the seat in turn its client is sent TRICK again with the running number and the table, and nothing else changes |
| Turns.AnswerInTurn | serwer.cpp:767-870 | in every reachable state a message of the seat in turn is accepted if and only if it is a legal card of the running trick; otherwise WRONG with the running number is sent, nothing else changes, and the seat is still in turn |
| Turns.RefusedOutOfTurn | serwer.cpp:914-996 | outside a barrier any message of a seat not in turn is answered with WRONG, and a token that waits is read in the same turn of the loop |
| Turns.PutAside | serwer.cpp:897-975 | a thread that begins a turn while a barrier is running puts the message that comes aside |
| Turns.HeldBack | serwer.cpp:1081-1109 | in every reachable state, between acting on the token that asks to the barrier and on the one that lets go, a thread parses nothing and sends nothing |
| LogSteps.ReachableLogs | serwer.cpp:872-1129 | in every reachable state each log is what the thread's progress says |
| Agreement.LogIsStory | serwer.cpp:483-507 | apart from WRONG and repeated TRICK each seat was sent a beginning of DEAL, then TRICK and TAKEN in turn, then SCORE and TOTAL: at most 29 messages, SCORE and TOTAL only as the last two and after thirteen tricks |
| Agreement.SeatsAgree | serwer.cpp:1020-1080 | the i-th messages of two seats agree: DEAL has the type and the starter of the file and gives each its own hand of it, TRICK shows each the cards of the seats before it, TAKEN is the recorded trick, SCORE is what each seat took, TOTAL the totals |
| Agreement.ReplayIsStory | serwer.cpp:679-730 | what a reconnecting client is sent is its seat's story without the TRICKs: DEAL with the type, starter and hand of the file, then each TAKEN in order |
| Agreement.TranscriptComplete | serwer.cpp:354-509 | when a deal is over every seat was sent all 29 messages of it |
| Agreement.CleanSuffices | klient.cpp:452-550 | WRONG and repeated TRICK change neither the cards a client counts nor its trick number |
| Agreement.ClientFollows | klient.cpp:452-550 | a client that read its log, repetitions included, counts exactly the dealt hand less the tricks it was told about |
| Agreement.ClientFinishes | klient.cpp:452-550 | after a deal each client has an empty hand, nothing pending, and the tricks it took |
| Barrier.NextInv | serwer.cpp:222-310 | every step, departures and replacements included, keeps the barrier invariant |
| Barrier.OnePerSeat | serwer.cpp:40-64 | each asked seat is there, or has one token waiting, or has one departure notice under way; `occupied` counts those there and is never clamped |
| Barrier.ReleasesAllOnly | serwer.cpp:296-300 | the barrier lets go only when all four are there |
| Barrier.WakeUpsAccounted | serwer.cpp:1081-1097 | wake-ups read and owed are as many as the times the four were complete |
| Barrier.FlagIsUp | serwer.cpp:43-54 | `b_is_barrier_ongoing` is set throughout every round, and after it while a departure is unread |
| Barrier.QuietRound | serwer.cpp:222-310 | a round without departures uses exactly one wake-up and leaves the pipes clean for the next |
| Barrier.NoLostWakeUp | serwer.cpp:245-300 | while the server waits, a wake-up is owed if all four are there, and each missing seat has a token or a notice on its way |
| Departures.StaleWakeUp | serwer.cpp:1085-1093 | a run with one departure in which the server lets go while a second wake-up is still owed |
| Departures.UnreadWakeUp | serwer.cpp:270-300 | a run with one departure, of the only seat there, in which the server lets go without having read the only wake-up |
| Departures.DepartureLeavesWakeUp | serwer.cpp:270-300 | from every reachable state of a round, a departure of any seat that is there can leave a wake-up behind though nobody leaves any more |
| Departures.SafeIffNobodyLeaves | serwer.cpp:222-310 | a round is certain all the way to leave no wake-up behind if and only if no thread leaves it |
| Client.Klient.Strategy | klient.cpp:326-352 | the card played is the first of the asked suit in the hand, or the last of the hand if it has none or no suit is asked; the rest keeps its order; it is added to the played cards |
| Client.TrickPlays | klient.cpp:512-550 | on a TRICK of its own number the client plays by that rule, asked for the suit of the first card |
| Client.Klient.OnDeal | klient.cpp:452-462 | a new hand and trick number 1; played cards stay |
| Client.Klient.OnTaken | klient.cpp:468-499 | played cards return to the hand and the four cards leave it, only for the own trick number |
| Client.Klient.OnTrick | klient.cpp:512-550 | the strategy is asked only for the own trick number |
| Client.EraseEachBag | klient.cpp:489-494 | erasing the cards of a trick one by one is subtracting them |
| Client.Resynchronised | klient.cpp:482-497 | over any messages of a deal hand plus played cards are what was held less the accepted TAKENs, and nothing is pending after a TAKEN |
| Client.TakenOrder | klient.cpp:482-494 | after TAKEN the hand is in its old order, played cards behind, without the cards of the trick |
| Client.ScoreFlags | klient.cpp:500-511 | SCORE and TOTAL are remembered until the next DEAL |
| Client.HandFromDeal | klient.cpp:452-462 | the same counted from the DEAL |
| Client.DealResets | klient.cpp:452-462 | after DEAL the view is the dealt hand if and only if no card was pending |
| Client.DealKeepsPending | klient.cpp:452-462 | whatever two hands are dealt, a DEAL between a TRICK and its TAKEN leaves the card sent for the TRICK counted beside the new hand |
| Match.HandLeft | serwer.cpp:679-730 | the dealt hand less the recorded tricks is the hand held plus the own card on the table |
| Match.ReplayAgrees | serwer.cpp:679-730 | a client that reconnects accepts every replayed TAKEN, is at the right trick, and holds the server's hand plus its own card on the table |
| Match.ReplayAnswered | serwer.cpp:716-728 | if it is its turn, its answer to the TRICK sent then is accepted |
| Match.AnswerLegal | klient.cpp:326-352 | the strategy's card is legal whenever client and server hold the same cards |
| Match.AdvanceAgrees | klient.cpp:512-550 | each step keeps all four clients in agreement with the server and is accepted |
| Match.AnswerUsesCard | serwer.cpp:831-835 | each answer uses up one card of those in hand |
| Match.AutomaticGame | serwer.cpp:511-535 | four automatic clients play the whole file: 52 answers a deal, none refused, all deals scored |
| Players.FirstAsked | klient.cpp:326-352 | whatever was repeated before, where a client is first asked for its card of the running trick it holds just the server's hand and has nothing pending |
| Players.ClientAnswers | klient.cpp:512-550 | whenever the server waits for a client, its reply to the first copy of the running TRICK is a legal card of the server's hand, whatever was repeated before and since |
| Players.AnswerTakenUp | serwer.cpp:767-870 | that reply is taken up in the next two steps of the thread |
| Players.ReplyConforms | klient.cpp:326-352 | the reply to a TRICK keeps to the grammar of client messages if and only if the hand is not empty |
| Players.AskedTooOften | klient.cpp:537-540 | of the copies of the running TRICK in a thread's log just the first 14 - n are answered within the grammar, n being the trick |
| WholeGame.DueAnswer | serwer.cpp:767-870 | the reply that is due to a thread is one that `parse_message` accepts |
| WholeGame.AfterOk | serwer.cpp:872-1129 | with automatic clients and no timeout every step leaves all seats without WRONG, repetition or message put aside, and one reply due at most |
| WholeGame.UnreadStep | serwer.cpp:834-842 | cards to be played for which no reply was read go down by one with each reply read, and by nothing else |
| WholeGame.FilePlayedOut | serwer.cpp:511-535 | with four automatic clients and no timeout every run is bounded and can go on until the whole file is played, all deals scored, 52 replies a deal read and none refused |
| Text.NatDigits | senders.cpp:29-37 | the text of a number consists of digits and has that value |
| Text.StoiNat | serwer.cpp:785-790 | a printed number is read back whatever follows, if no digit follows |
| Text.CardsInverse | points_calculator.cpp:12-20 | a card's text names that card, figures J, Q, K and A included |
| Text.ExtractCards | regex.cpp:62-73 | the iterator loop finds the leftmost cards one after another |
| Text.ExtractInverse | regex.cpp:62-73 | extraction from a row of printed cards returns their texts, for rows of any length |
| Text.ExtractSkips | regex.cpp:62-73 | what is no part of a card is passed over |
| Text.RunIsPrinted | regex.cpp:15-20 | the grammar of card rows accepts exactly the printed rows |
| Text.NumberedInjective | regex.cpp:22-27 | number and cards can be told apart for trick numbers 1 to 19 though nothing separates them |
| Messages.ExtractSeatScore | regex.cpp:83-94 | the iterator loop finds the leftmost seat scores one after another |
| Messages.PairsInverse | regex.cpp:83-94 | extraction from printed seat scores returns them, for lists of any length, and the grammar accepts the text |
| Messages.PairExactly | regex.cpp:83-94 | a seat score is a seat letter, at least one digit, and nothing else |
| Messages.PairRunExactly | regex.cpp:50-60 | the grammar of scores accepts exactly the texts that are n seat scores one after another |
| Messages.PointsInverse | senders.cpp:57-80 | scores printed in the map's order are read back by seat |
| Messages.ScoresInKeyOrder | senders.cpp:57-80 | SCORE and TOTAL name E, N, S, W in this order, each with its own points |
| Messages.BusyExactly | regex.cpp:9-13 | BUSY is recognised if and only if it names at most four seats and nothing else |
| Messages.Spelling | senders.cpp:11-80 | samples of the exact text of every kind of message |
| Messages.SpelledCards | points_calculator.cpp:12-20 | samples of the spelling of figures and suits |
| Messages.SendDeal | senders.cpp:19-27 | the text of DEAL |
| Messages.SendTrick | senders.cpp:29-37 | the text of TRICK |
| Messages.SendTaken | senders.cpp:47-55 | the text of TAKEN |
| Messages.SendScores | senders.cpp:57-80 | the texts of SCORE and TOTAL, seats in the order E, N, S, W |
| Codec.WrongPrinted | senders.cpp:39-45 | a printed WRONG passes the client's check for every number but 0, and its number is read back |
| Codec.TakenOnlyOwn | regex.cpp:42-48 | a printed TAKEN passes the check of a trick if and only if it is of that trick |
| Codec.TrickOnlyOwn | regex.cpp:22-27 | a printed TRICK passes the check of a trick if and only if it is of that trick |
| Codec.ShortTrick | klient.cpp:516 | a TRICK of at most nine characters is exactly one without cards |
| Codec.DecodePrint | klient.cpp:440-552 | every printed message is understood as it was sent, or ignored when it belongs to another trick |
| Codec.HeardIsPrinted | klient.cpp:440-552 | whatever is heard as DEAL, TRICK, TAKEN or WRONG is the printed form of that message |
| Codec.TextIsMessage | klient.cpp:440-552 | on printed texts the client does what it does on the messages |
| Codec.HandleTrick | klient.cpp:512-549 | answers with the own trick number and the strategy's card, or with no card when the hand is empty |
| Codec.HandleMessage | klient.cpp:429-553 | the branches on a text leave the view that decoding and receiving it gives, and the reply that TRICK asks for |
| Acceptance.SaidExactly | regex.cpp:29-34 | the grammar of client messages is exactly what is printed for a number 1 to 13 and one card, and each text has one reading |
| Acceptance.GuessIsRight | serwer.cpp:783-796 | the guessed width is harmless: the cut gives the running trick and a card of the hand exactly when the message says so |
| Acceptance.AcceptedExactly | serwer.cpp:775-848 | a text is accepted if and only if it is TRICK, the running trick and a legal card of the hand |
| Acceptance.Hands.ParseMessage | serwer.cpp:767-870 | on hands kept as texts: closed, refused with WRONG or accepted in exactly these cases, and what changes; no cut or conversion fails |
| Wire.Socket.ReadFromSocket | common.cpp:86-113 | returns the first frame of at most 91 bytes, -1 after 91 bytes without a line end, 0 at the end of the stream |
| Wire.Socket.WriteToSocket | common.cpp:123-140 | however writes are split the bytes go out in order, and the whole length is reported exactly when all did |
| Wire.PrintFits | common.h:20 | every message with scores of at most twenty digits fits the bound |
| Wire.BoundReached | common.h:20 | a SCORE of four twenty-digit numbers is 91 bytes long, one more than the bound |
| Wire.LineIsFrame | common.cpp:86-113 | whatever follows a line, the first frame is the line |
| Wire.StreamInverse | common.cpp:86-113 | reading the concatenation of any list of messages returns exactly that list |
| Wire.Listen | klient.cpp:429-553 | a client reading a stream byte by byte ends with the view the messages make, and has answered each TRICK of its own number |
| Delivery.SentIsRead | senders.cpp:19-80 | in every reachable state of the concurrent server, what a thread has sent is read back message by message |
| Delivery.WrongZero | serwer.cpp:356-360 | while DEAL is handed out, in any deal, an idle thread refuses a message with WRONG 0 |
| Delivery.WrongZeroSent | serwer.cpp:853-858 | a run from the start of the server in which WRONG 0 is sent |
| Delivery.TextTaken | serwer.cpp:775-848 | the acceptance test of the protocol is the one on texts |

## Left out

- Socket and pipe creation, address lookup, failed reads, writes and polls: foreign calls. Pipes are reliable queues; a socket is the bytes to come and what each write accepts.
- `close_server`, joining of threads and the cleanup loop over `joinable_threads`.
- Real time: a timeout is a step that may happen whenever the thread is destined to play.
- Departures in `Protocol`, and in `Barrier` departures before the barrier token is read; after such a departure a second token is written while the first is still in the pipe, and the code gives no clean guarantee.
- Messages left queued for a client that was replaced, IAM, and when BUSY is sent.
- The unlocked windows inside the replay loop of `reserve_spot`: `Match.ReplayAgrees` takes the replay as one snapshot.
- Several notices in one `poll`: `Protocol` reads one at a time, which loses nothing because `Safety.OneNotice` shows there is never a second; `Barrier` reads all the seats that `poll` found readable, in seat order.
- 32-bit scores: scores are unbounded integers; `Conduct.ScoreConservation` bounds them by 160 a deal, so a file of fewer than thirteen million deals cannot overflow.
- `file_reader.cpp`, argument parsing, logging, `klient_printer.cpp` and the commands of the interactive client.
- The regular-expression engine: each pattern is a direct recogniser, each iterator a leftmost greedy scanner.
- Server.Serwer.RunDeal: takes the clients' messages in the order in which they are parsed; the threads that produce such orders are the matter of `Protocol`.
- Client.Klient.OnTrick: takes the cards already extracted; `Codec.HandleTrick` does the same on the text.
- Delivery.SentIsRead: for game files whose total of points is below 10^20, so that scores have at most twenty digits.
- WholeGame.FilePlayedOut: has no queues for the bytes between a thread and its client; a reply may be read at any time after its TRICK was sent, and until then the client is sent nothing that would change it. Timeouts are left out, since a repeated TRICK can break the grammar (`Players.AskedTooOften`).
