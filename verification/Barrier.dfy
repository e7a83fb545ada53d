/** The barrier of serwer.cpp when clients leave: `barrier` against four seat threads of which any may leave
    once it has read its barrier token, to be replaced by a new client that takes over the same two pipes.
    Only the barrier's own tokens are kept; the rest of the traffic is the matter of `Protocol`. */
module Barrier {
  import opened Cards

  /** BARRIER_RESPONSE and BARRIER_END from the server to a seat. */
  datatype Token = Ask | End

  /** BARRIER_RESPONSE (a wake-up) and DISCONNECTED from a seat to the server. */
  datatype Notice = WakeUp | Left

  /** The thread that serves a seat: none, not yet at the barrier, there but with the wake-up still to be
      written, or there. */
  datatype Pc = Vacant | Running | Waking | Arrived

  datatype Chair = Chair(
    pc: Pc,
    leaving: bool,                 // a thread has left the barrier (43-54), its notice is not yet written (60)
    inbox: seq<Token>,
    outbox: seq<Notice>)

  datatype MainPc =
    | Idle                         // outside `barrier`
    | AskSeat(i: Seat)             // 231-236
    | Wait                         // 249
    | Reading(ready: set<Seat>)    // 257-294, these of the seats that `poll` found readable still to be read
    | AskAgain(i: Seat, ready: set<Seat>)   // a departure was read, the new token is not yet written (274)
    | Check                        // 296-299
    | Release(i: Seat)             // 302-307

  datatype State = State(
    pc: MainPc,
    ongoing: bool,                 // b_is_barrier_ongoing
    occupied: int,
    seats: seq<Chair>,
    reached: nat,                  // history: how often `occupied` came to four in this round
    read: nat,                     // history: wake-ups read in this round
    departures: nat)               // history: threads that left in this round

  datatype Action =
    | Start | Tell | Poll | Read(from: Seat) | AskNew | EndBatch | Compare | Free
    | Consume(s: Seat) | Wake(s: Seat) | Depart(s: Seat) | Tells(s: Seat) | Join(s: Seat)

  // ---- Steps ---------------------------------------------------------------------------------------------

  /** The seat is as it should be when a round starts: nothing of an earlier round is on its way to the server,
      and what is on its way to the seat only releases it. */
  predicate CleanSeat(x: Chair) {
    && !x.leaving && x.outbox == [] && !x.pc.Waking? && Ask !in x.inbox
    && (x.pc.Arrived? ==> x.inbox != [])
  }

  predicate Clean(st: State) {
    |st.seats| == 4 && forall s: Seat :: CleanSeat(st.seats[s])
  }

  /** At the barrier of the running round. */
  predicate Here(x: Chair) {
    (x.pc.Waking? || x.pc.Arrived?) && x.inbox == []
  }

  /** The seats with a notice to read. */
  function Readable(st: State): set<Seat>
    requires |st.seats| == 4
  {
    set s: Seat | 0 <= s < 4 && st.seats[s].outbox != []
  }

  /** The server has read the departure of seat `s`, and has not written the token for its successor. */
  predicate Answering(pc: MainPc, s: Seat) {
    pc.AskAgain? && pc.i == s
  }

  /** A round starts clean, and a thread leaves only when it has read its token and acted on it. */
  predicate Enabled(st: State, a: Action)
    requires |st.seats| == 4
  {
    match a
    case Start => st.pc.Idle? && Clean(st)
    case Tell => st.pc.AskSeat?
    case Poll => st.pc.Wait? && Readable(st) != {}
    case Read(from) =>
      && st.pc.Reading? && from in st.pc.ready && (forall u: Seat | u < from :: u !in st.pc.ready)
      && st.seats[from].outbox != []
    case AskNew => st.pc.AskAgain?
    case EndBatch => st.pc.Reading? && st.pc.ready == {}
    case Compare => st.pc.Check?
    case Free => st.pc.Release?
    case Consume(s) => (st.seats[s].pc.Running? || st.seats[s].pc.Arrived?) && st.seats[s].inbox != []
    case Wake(s) => st.seats[s].pc.Waking?
    case Depart(s) => st.seats[s].pc.Arrived? && Here(st.seats[s])
    case Tells(s) => st.seats[s].leaving
    case Join(s) => st.seats[s].pc.Vacant?
  }

  function Send(st: State, s: Seat, t: Token): seq<Chair>
    requires |st.seats| == 4
  {
    st.seats[s := st.seats[s].(inbox := st.seats[s].inbox + [t])]
  }

  function Next(st: State, a: Action): (r: State)
    requires |st.seats| == 4 && Enabled(st, a)
    ensures |r.seats| == 4
  {
    match a
    case Start => st.(pc := AskSeat(0), ongoing := true, occupied := 0, reached := 0, read := 0, departures := 0)
    case Tell => st.(seats := Send(st, st.pc.i, Ask), pc := if st.pc.i < 3 then AskSeat(st.pc.i + 1) else Wait)
    case Poll => st.(pc := Reading(Readable(st)))
    case Read(from) =>
      var x, rest := st.seats[from], st.pc.ready - {from};
      var r := st.(seats := st.seats[from := x.(outbox := x.outbox[1..])]);
      if x.outbox[0] == Left then r.(pc := AskAgain(from, rest)) else r.(pc := Reading(rest), read := st.read + 1)
    case AskNew => st.(seats := Send(st, st.pc.i, Ask), pc := Reading(st.pc.ready))
    case EndBatch => st.(pc := Check)
    case Compare =>
      if 4 - st.occupied > 0 then st.(pc := Wait)
      else st.(pc := Release(0), ongoing := if 4 - st.occupied == 0 then false else st.ongoing)
    case Free => st.(seats := Send(st, st.pc.i, End), pc := if st.pc.i < 3 then Release(st.pc.i + 1) else Idle)
    case Consume(s) =>
      var x := st.seats[s].(inbox := st.seats[s].inbox[1..]);
      if st.seats[s].inbox[0] == End then st.(seats := st.seats[s := x.(pc := Running)])
      else
        var n := st.occupied + 1;
        st.(occupied := n, reached := st.reached + if n == 4 then 1 else 0,
            seats := st.seats[s := x.(pc := if n == 4 then Waking else Arrived)])
    case Wake(s) => st.(seats := st.seats[s := st.seats[s].(pc := Arrived, outbox := st.seats[s].outbox + [WakeUp])])
    case Depart(s) =>
      st.(occupied := if st.occupied - 1 < 0 then 0 else st.occupied - 1, ongoing := true, departures := st.departures + 1,
          seats := st.seats[s := st.seats[s].(pc := Vacant, leaving := true)])
    case Tells(s) => st.(seats := st.seats[s := st.seats[s].(leaving := false, outbox := st.seats[s].outbox + [Left])])
    case Join(s) => st.(seats := st.seats[s := st.seats[s].(pc := Running)])
  }

  // ---- The invariant ---------------------------------------------------------------------------------------

  predicate InRound(pc: MainPc) {
    !pc.Idle? && !pc.Release?
  }

  /** The server has written this round's token to seat `s`. */
  predicate Asked(pc: MainPc, s: Seat) {
    !pc.AskSeat? || s < pc.i
  }

  /** The token is in the pipe, behind at most the releases of earlier rounds. */
  predicate Summoned(x: Chair) {
    && x.inbox != [] && x.inbox[|x.inbox| - 1] == Ask && Ask !in x.inbox[..|x.inbox| - 1]
    && !x.leaving && x.outbox == [] && !x.pc.Waking? && (x.pc.Arrived? ==> |x.inbox| > 1)
  }

  /** At the barrier; its wake-up, if it is the one that completed the four, may be unread. */
  predicate Present(x: Chair) {
    Here(x) && !x.leaving && (x.outbox == [] || (x.outbox == [WakeUp] && x.pc.Arrived?))
  }

  /** It was at the barrier and has left, and the server has not yet asked a successor. */
  predicate Missing(pc: MainPc, s: Seat, x: Chair) {
    && x.inbox == [] && (x.pc.Vacant? || x.pc.Running?)
    && (if x.leaving then !Answering(pc, s) && (x.outbox == [] || x.outbox == [WakeUp])
        else if Answering(pc, s) then x.outbox == []
        else x.outbox == [Left] || x.outbox == [WakeUp, Left])
  }

  predicate SeatOk(pc: MainPc, s: Seat, x: Chair) {
    if Asked(pc, s) then
      (Answering(pc, s) ==> Missing(pc, s, x)) && (Summoned(x) || Present(x) || Missing(pc, s, x))
    else CleanSeat(x)
  }

  function Count(b0: bool, b1: bool, b2: bool, b3: bool): nat {
    (if b0 then 1 else 0) + (if b1 then 1 else 0) + (if b2 then 1 else 0) + (if b3 then 1 else 0)
  }

  function PresentCount(st: State): nat
    requires |st.seats| == 4
  {
    Count(Here(st.seats[0]), Here(st.seats[1]), Here(st.seats[2]), Here(st.seats[3]))
  }

  /** Wake-ups to be written, or written and unread. */
  predicate Owed(x: Chair) {
    x.pc.Waking? || (x.outbox != [] && x.outbox[0] == WakeUp)
  }

  function OwedCount(st: State): nat
    requires |st.seats| == 4
  {
    Count(Owed(st.seats[0]), Owed(st.seats[1]), Owed(st.seats[2]), Owed(st.seats[3]))
  }

  predicate Counted(st: State)
    requires |st.seats| == 4
  {
    && st.occupied == PresentCount(st)
    && OwedCount(st) + st.read == st.reached <= st.departures + (if st.occupied == 4 then 1 else 0)
    && ((st.pc.AskSeat? || st.pc.Wait?) && st.occupied == 4 ==> OwedCount(st) > 0)
  }

  predicate NobodyMissing(x: Chair) {
    Summoned(x) || Present(x) || CleanSeat(x)
  }

  /** Without departures the server wakes up for wake-ups only. */
  predicate Faithful(st: State)
    requires |st.seats| == 4
  {
    st.departures == 0 ==>
      && !st.pc.AskAgain? && (st.pc.Check? || (st.pc.Reading? && st.pc.ready == {}) ==> st.read > 0)
      && forall s: Seat :: NobodyMissing(st.seats[s])
  }

  /** What `poll` found readable and is not yet read can be read. */
  predicate BatchOk(st: State)
    requires |st.seats| == 4
  {
    st.pc.Reading? || st.pc.AskAgain? ==> forall s: Seat | s in st.pc.ready :: st.seats[s].outbox != []
  }

  /** After a round without departures every seat is clean, or waits for its release. */
  predicate TidySeat(pc: MainPc, s: Seat, x: Chair) {
    if pc.Release? && pc.i <= s then x == Chair(Arrived, false, [], []) else CleanSeat(x)
  }

  predicate Tidy(st: State)
    requires |st.seats| == 4
  {
    st.departures == 0 ==> forall s: Seat :: TidySeat(st.pc, s, st.seats[s])
  }

  predicate Inv(st: State) {
    && |st.seats| == 4
    && if InRound(st.pc) then (forall s: Seat :: SeatOk(st.pc, s, st.seats[s])) && Counted(st) && Faithful(st) && BatchOk(st)
       else Tidy(st)
  }

  // ---- Every step keeps it -----------------------------------------------------------------------------------

  lemma CountAt(st: State, s: Seat, x: Chair)
    requires |st.seats| == 4
    ensures var r := st.(seats := st.seats[s := x]);
            && PresentCount(r) == PresentCount(st) - (if Here(st.seats[s]) then 1 else 0) + (if Here(x) then 1 else 0)
            && OwedCount(r) == OwedCount(st) - (if Owed(st.seats[s]) then 1 else 0) + (if Owed(x) then 1 else 0)
  {
    hide Here, Owed;
  }

  /** The seat a step concerns. */
  function Subject(st: State, a: Action): Seat {
    match a
    case Tell => if st.pc.AskSeat? then st.pc.i else 0
    case Read(from) => from
    case AskNew => if st.pc.AskAgain? then st.pc.i else 0
    case Free => if st.pc.Release? then st.pc.i else 0
    case Consume(s) => s
    case Wake(s) => s
    case Depart(s) => s
    case Tells(s) => s
    case Join(s) => s
    case _ => 0
  }

  /** No step touches a second seat. */
  lemma OnlySubject(st: State, a: Action)
    requires |st.seats| == 4 && Enabled(st, a)
    ensures var x := Next(st, a).seats; x == st.seats[Subject(st, a) := x[Subject(st, a)]]
  {
    hide Clean, Here;
  }

  /** The seat of the step, within a round. */
  lemma SubjectOk(st: State, a: Action)
    requires Inv(st) && Enabled(st, a) && InRound(st.pc) && InRound(Next(st, a).pc)
    ensures var s, st' := Subject(st, a), Next(st, a);
            SeatOk(st'.pc, s, st'.seats[s]) && (st'.departures == 0 ==> NobodyMissing(st'.seats[s]))
  {
    hide Counted, Clean, SeatOk, NobodyMissing;
    match a
    case Tell => TellOk(st);
    case Read(from) => ReadOk(st, from);
    case AskNew => AskNewOk(st);
    case Consume(s) => ConsumeOk(st, s);
    case Wake(s) => WakeOk(st, s);
    case Depart(s) => LeaveOk(st, a, s);
    case Tells(s) => LeaveOk(st, a, s);
    case Join(s) => JoinOk(st, s);
    case _ => CompareOk(st, a);
  }

  lemma TellOk(st: State)
    requires |st.seats| == 4 && st.pc.AskSeat? && SeatOk(st.pc, st.pc.i, st.seats[st.pc.i])
    ensures var x := Next(st, Tell).seats[st.pc.i]; SeatOk(Next(st, Tell).pc, st.pc.i, x) && NobodyMissing(x)
  {
    var x := st.seats[st.pc.i];
    assert (x.inbox + [Ask])[..|x.inbox|] == x.inbox;
    assert Summoned(Next(st, Tell).seats[st.pc.i]);
  }

  lemma ReadOk(st: State, from: Seat)
    requires |st.seats| == 4 && Enabled(st, Read(from)) && SeatOk(st.pc, from, st.seats[from])
    requires st.departures == 0 ==> NobodyMissing(st.seats[from])
    ensures var st' := Next(st, Read(from));
            SeatOk(st'.pc, from, st'.seats[from]) && (st'.departures == 0 ==> NobodyMissing(st'.seats[from]))
  {
    hide Clean, Summoned, CleanSeat;
    NotSummoned(st.seats[from]);
    assert Present(st.seats[from]) || Missing(st.pc, from, st.seats[from]);
    assert st.departures == 0 ==> Present(st.seats[from]);
  }

  /** A seat with a notice to read has been at the barrier. */
  lemma NotSummoned(x: Chair)
    requires x.outbox != []
    ensures !Summoned(x) && !CleanSeat(x)
  {
  }

  lemma AskNewOk(st: State)
    requires |st.seats| == 4 && st.pc.AskAgain? && SeatOk(st.pc, st.pc.i, st.seats[st.pc.i])
    ensures var x := Next(st, AskNew).seats[st.pc.i]; SeatOk(Next(st, AskNew).pc, st.pc.i, x) && NobodyMissing(x)
  {
    assert Missing(st.pc, st.pc.i, st.seats[st.pc.i]);
    assert Summoned(Next(st, AskNew).seats[st.pc.i]);
  }

  lemma ConsumeOk(st: State, s: Seat)
    requires |st.seats| == 4 && InRound(st.pc) && Enabled(st, Consume(s)) && SeatOk(st.pc, s, st.seats[s])
    ensures var st' := Next(st, Consume(s)); SeatOk(st'.pc, s, st'.seats[s]) && NobodyMissing(st'.seats[s])
  {
    var x, y := st.seats[s], Next(st, Consume(s)).seats[s];
    if Asked(st.pc, s) {
      assert Summoned(x);
      if |x.inbox| == 1 {
        assert Present(y);
      } else {
        assert x.inbox[0] == x.inbox[..|x.inbox| - 1][0];
        assert y.inbox[..|y.inbox| - 1] == x.inbox[..|x.inbox| - 1][1..];
        assert Summoned(y);
      }
    } else {
      assert x.inbox[0] == End;
      assert CleanSeat(y);
    }
  }

  lemma WakeOk(st: State, s: Seat)
    requires |st.seats| == 4 && InRound(st.pc) && Enabled(st, Wake(s)) && SeatOk(st.pc, s, st.seats[s])
    ensures var st' := Next(st, Wake(s)); SeatOk(st'.pc, s, st'.seats[s]) && NobodyMissing(st'.seats[s])
  {
    hide Clean;
    assert Present(st.seats[s]);
    assert Present(Next(st, Wake(s)).seats[s]);
    hide Summoned, Missing, CleanSeat;
  }

  lemma LeaveOk(st: State, a: Action, s: Seat)
    requires |st.seats| == 4 && InRound(st.pc) && (a == Depart(s) || a == Tells(s)) && Enabled(st, a)
    requires SeatOk(st.pc, s, st.seats[s]) && (st.departures == 0 ==> NobodyMissing(st.seats[s]))
    ensures var st' := Next(st, a); SeatOk(st'.pc, s, st'.seats[s]) && st'.departures > 0
  {
    hide Clean;
    assert Asked(st.pc, s);
    assert Missing(Next(st, a).pc, s, Next(st, a).seats[s]);
    hide Summoned, CleanSeat, Present;
  }

  lemma JoinOk(st: State, s: Seat)
    requires |st.seats| == 4 && InRound(st.pc) && Enabled(st, Join(s)) && SeatOk(st.pc, s, st.seats[s])
    ensures var st' := Next(st, Join(s));
            SeatOk(st'.pc, s, st'.seats[s]) && (NobodyMissing(st.seats[s]) ==> NobodyMissing(st'.seats[s]))
  {
    hide Clean;
  }

  lemma CompareOk(st: State, a: Action)
    requires Inv(st) && Enabled(st, a) && InRound(st.pc) && InRound(Next(st, a).pc) && (a.Poll? || a.EndBatch? || a.Compare?)
    ensures var st' := Next(st, a);
            SeatOk(st'.pc, 0, st'.seats[0]) && (st'.departures == 0 ==> NobodyMissing(st'.seats[0]))
  {
    hide Counted, Clean, Summoned, Present, CleanSeat;
    assert SeatOk(st.pc, 0, st.seats[0]);
    assert st.departures == 0 ==> NobodyMissing(st.seats[0]);
  }

  lemma OtherOk(st: State, a: Action, u: Seat)
    requires Inv(st) && Enabled(st, a) && InRound(st.pc) && InRound(Next(st, a).pc) && u != Subject(st, a)
    ensures var st' := Next(st, a);
            SeatOk(st'.pc, u, st'.seats[u]) && (st'.departures == 0 ==> NobodyMissing(st'.seats[u]))
  {
    hide Counted, Clean, Summoned, Present, CleanSeat;
    assert SeatOk(st.pc, u, st.seats[u]);
    assert st.departures == 0 ==> NobodyMissing(st.seats[u]);
  }

  lemma StepCounted(st: State, a: Action)
    requires Inv(st) && Enabled(st, a) && InRound(st.pc) && InRound(Next(st, a).pc)
    ensures Counted(Next(st, a))
  {
    var s, st' := Subject(st, a), Next(st, a);
    assert SeatOk(st.pc, s, st.seats[s]);
    OnlySubject(st, a);
    CountAt(st, s, st'.seats[s]);
    assert PresentCount(st') == PresentCount(st.(seats := st'.seats)) && OwedCount(st') == OwedCount(st.(seats := st'.seats));
    Flags(st, a);
    CountBound(st');
    hide SeatOk, PresentCount, OwedCount, Clean, Faithful, Here, Owed;
  }

  lemma CountBound(st: State)
    requires |st.seats| == 4
    ensures PresentCount(st) <= 4
  {
  }

  /** How a step moves its seat to or from the barrier, and what it owes. */
  lemma Flags(st: State, a: Action)
    requires |st.seats| == 4 && Enabled(st, a) && InRound(st.pc) && InRound(Next(st, a).pc)
    requires SeatOk(st.pc, Subject(st, a), st.seats[Subject(st, a)])
    ensures var s := Subject(st, a);
            var x, y := st.seats[s], Next(st, a).seats[s];
            && (Here(x) <==> if a.Consume? && x.inbox[0] == Ask then false else if a.Depart? then true else Here(y))
            && (a.Consume? && x.inbox[0] == Ask ==> Here(y))
            && (a.Depart? ==> !Here(y))
            && (Owed(x) <==> if a.Consume? && x.inbox[0] == Ask then false
                             else if a.Read? && x.outbox[0] == WakeUp then true else Owed(y))
            && (a.Consume? && x.inbox[0] == Ask ==> (Owed(y) <==> st.occupied + 1 == 4))
            && (a.Read? && x.outbox[0] == WakeUp ==> !Owed(y))
  {
    hide Clean;
  }

  lemma StepFaithful(st: State, a: Action)
    requires Inv(st) && Enabled(st, a) && InRound(st.pc) && InRound(Next(st, a).pc)
    ensures var st' := Next(st, a);
            st'.departures == 0 ==>
              !st'.pc.AskAgain? && (st'.pc.Check? || (st'.pc.Reading? && st'.pc.ready == {}) ==> st'.read > 0)
  {
    hide Counted, Clean, SeatOk;
    assert st.departures == 0 ==> NobodyMissing(st.seats[Subject(st, a)]);
  }

  lemma StepBatch(st: State, a: Action)
    requires Inv(st) && Enabled(st, a) && InRound(st.pc) && InRound(Next(st, a).pc)
    ensures BatchOk(Next(st, a))
  {
    hide Counted, Faithful, SeatOk, Clean;
  }

  lemma RoundStep(st: State, a: Action)
    requires Inv(st) && Enabled(st, a) && InRound(st.pc) && InRound(Next(st, a).pc)
    ensures Inv(Next(st, a))
  {
    StepCounted(st, a);
    StepFaithful(st, a);
    StepBatch(st, a);
    SubjectOk(st, a);
    forall u: Seat | u != Subject(st, a)
      ensures SeatOk(Next(st, a).pc, u, Next(st, a).seats[u])
              && (Next(st, a).departures == 0 ==> NobodyMissing(Next(st, a).seats[u]))
    {
      OtherOk(st, a, u);
    }
    hide Next, Enabled, Counted, SeatOk, NobodyMissing, Subject, BatchOk;
  }

  /** A new round starts with nobody counted. */
  lemma StartStep(st: State)
    requires |st.seats| == 4 && Enabled(st, Start)
    ensures Inv(Next(st, Start))
  {
    forall s: Seat ensures CleanSeat(st.seats[s]) && !Here(st.seats[s]) && !Owed(st.seats[s]) { }
    hide CleanSeat, Here, Owed;
  }

  /** The server lets go: all four are there, and without departures all wake-ups have been read. */
  lemma Lets(st: State)
    requires Inv(st) && st.pc.Check? && 4 - st.occupied <= 0
    ensures forall s: Seat :: Here(st.seats[s])
    ensures st.departures == 0 ==> OwedCount(st) == 0 && st.reached == st.read == 1
    ensures st.departures == 0 ==> forall s: Seat :: st.seats[s] == Chair(Arrived, false, [], [])
  {
    forall s: Seat ensures Here(st.seats[s]) {
      assert Here(st.seats[0]) && Here(st.seats[1]) && Here(st.seats[2]) && Here(st.seats[3]) by { hide Here, SeatOk, Faithful; }
    }
    if st.departures == 0 {
      forall s: Seat ensures st.seats[s] == Chair(Arrived, false, [], []) {
        assert SeatOk(st.pc, s, st.seats[s]);
        assert !Owed(st.seats[s]) by { hide Owed, SeatOk, NobodyMissing, Here; }
        hide OwedCount, PresentCount, NobodyMissing;
      }
    }
  }

  lemma TidyStep(st: State, a: Action)
    requires Inv(st) && Enabled(st, a) && !InRound(st.pc) && !a.Start?
    ensures Inv(Next(st, a))
  {
    var st' := Next(st, a);
    assert !InRound(st'.pc);
    if st'.departures == 0 {
      OnlySubject(st, a);
      forall s: Seat ensures TidySeat(st'.pc, s, st'.seats[s]) {
        assert TidySeat(st.pc, s, st.seats[s]);
      }
    }
  }

  lemma NextInv(st: State, a: Action)
    requires Inv(st) && Enabled(st, a)
    ensures Inv(Next(st, a))
  {
    if a.Start? {
      StartStep(st);
    } else if !InRound(st.pc) {
      TidyStep(st, a);
    } else if InRound(Next(st, a).pc) {
      RoundStep(st, a);
    } else {
      Lets(st);
      hide SeatOk, Counted, Faithful;
    }
  }

  // ---- Runs ----------------------------------------------------------------------------------------------------

  predicate IsRun(st: State, actions: seq<Action>)
    requires |st.seats| == 4
    decreases |actions|
  {
    actions == [] || (Enabled(st, actions[0]) && IsRun(Next(st, actions[0]), actions[1..]))
  }

  function RunOf(st: State, actions: seq<Action>): (r: State)
    requires |st.seats| == 4 && IsRun(st, actions)
    ensures |r.seats| == 4
    decreases |actions|
  {
    if actions == [] then st else RunOf(Next(st, actions[0]), actions[1..])
  }

  /** Before the first round: the pipes are empty. */
  predicate Initial(st: State) {
    st.pc.Idle? && Clean(st)
  }

  lemma {:induction false} RunInv(st: State, actions: seq<Action>)
    requires Inv(st) && IsRun(st, actions)
    ensures Inv(RunOf(st, actions))
    decreases |actions|
  {
    hide Inv, Next, Enabled;
    InvSeats(st);
    if actions != [] {
      NextInv(st, actions[0]);
      RunInv(Next(st, actions[0]), actions[1..]);
    }
  }

  lemma InvSeats(st: State)
    requires Inv(st)
    ensures |st.seats| == 4
  {
  }

  ghost predicate Reachable(st: State) {
    exists st0: State, actions :: |st0.seats| == 4 && Initial(st0) && IsRun(st0, actions) && RunOf(st0, actions) == st
  }

  lemma ReachableInv(st: State)
    requires Reachable(st)
    ensures Inv(st)
  {
    var st0: State, actions :| |st0.seats| == 4 && Initial(st0) && IsRun(st0, actions) && RunOf(st0, actions) == st;
    assert Inv(st0);
    hide Inv, IsRun, RunOf;
    RunInv(st0, actions);
  }

  // ---- What that means -------------------------------------------------------------------------------------------

  function Tokens(x: Chair): nat {
    multiset(x.inbox)[Ask]
  }

  /** Departure notices: to be written, unread, or read and not yet answered with a new token. */
  function Notices(pc: MainPc, s: Seat, x: Chair): nat {
    (if x.leaving then 1 else 0) + multiset(x.outbox)[Left] + (if Answering(pc, s) then 1 else 0)
  }

  lemma NoneIn<T>(x: seq<T>, t: T)
    requires t !in x
    ensures multiset(x)[t] == 0
  {
  }

  /** In every round, however many threads leave after arriving: each seat the server has asked is there, or has
      exactly one token waiting, or has exactly one departure notice under way; `occupied` counts the seats that
      are there, so it never has to be clamped. */
  lemma OnePerSeat(st: State, s: Seat)
    requires Reachable(st) && InRound(st.pc)
    ensures |st.seats| == 4
    ensures Asked(st.pc, s) ==>
              (if Here(st.seats[s]) then 1 else 0) + Tokens(st.seats[s]) + Notices(st.pc, s, st.seats[s]) == 1
    ensures st.occupied == PresentCount(st)
    ensures Enabled(st, Depart(s)) ==> st.occupied > 0
  {
    ReachableInv(st);
    assert SeatOk(st.pc, s, st.seats[s]);
    if Asked(st.pc, s) {
      OneSign(st.pc, s, st.seats[s]);
    }
    if Enabled(st, Depart(s)) {
      assert Here(st.seats[s]);
      OneHere(st, s);
    }
    hide Reachable, SeatOk, Faithful, BatchOk, Here, PresentCount, Tokens, Notices;
  }

  lemma OneHere(st: State, s: Seat)
    requires |st.seats| == 4 && Here(st.seats[s])
    ensures PresentCount(st) > 0
  {
    hide Here;
  }

  lemma OneSign(pc: MainPc, s: Seat, x: Chair)
    requires Asked(pc, s) && SeatOk(pc, s, x)
    ensures (if Here(x) then 1 else 0) + Tokens(x) + Notices(pc, s, x) == 1
  {
    if Summoned(x) {
      var n := |x.inbox| - 1;
      assert x.inbox == x.inbox[..n] + [Ask];
      NoneIn(x.inbox[..n], Ask);
    }
  }

  /** The barrier lets go only when all four seats are there. */
  lemma ReleasesAllOnly(st: State)
    requires Reachable(st) && Enabled1(st, Compare) && Next(st, Compare).pc.Release?
    ensures forall s: Seat :: Here(st.seats[s])
    ensures !Next(st, Compare).ongoing
  {
    ReachableInv(st);
    hide Reachable;
    Lets(st);
  }

  predicate Enabled1(st: State, a: Action) {
    |st.seats| == 4 && Enabled(st, a)
  }

  /** Wake-ups are accounted for: those read and those still owed are as many as the times the four were complete. */
  lemma WakeUpsAccounted(st: State)
    requires Reachable(st) && InRound(st.pc)
    ensures |st.seats| == 4
    ensures OwedCount(st) + st.read == st.reached <= st.departures + 1
  {
    ReachableInv(st);
    hide Reachable, SeatOk;
  }

  /** A round without departures writes exactly one wake-up, leaves none over, and leaves the pipes as the next
      round needs them. */
  lemma QuietRound(st: State)
    requires Reachable(st) && st.departures == 0
    ensures |st.seats| == 4
    ensures Enabled(st, Compare) && Next(st, Compare).pc.Release? ==> st.reached == st.read == 1 && OwedCount(st) == 0
    ensures st.pc.Idle? ==> Clean(st)
  {
    ReachableInv(st);
    hide Reachable;
    if Enabled(st, Compare) && Next(st, Compare).pc.Release? {
      Lets(st);
    }
    hide SeatOk, Counted, Faithful;
    if st.pc.Idle? {
      forall s: Seat ensures CleanSeat(st.seats[s]) { assert TidySeat(st.pc, s, st.seats[s]); }
    }
  }

  /** While the server waits, what it waits for is under way: with all four there a wake-up is owed; otherwise
      each missing seat has a token to read or a departure notice on its way. */
  lemma NoLostWakeUp(st: State)
    requires Reachable(st) && st.pc.Wait?
    ensures |st.seats| == 4
    ensures PresentCount(st) == 4 ==> exists s: Seat :: Owed(st.seats[s])
    ensures forall s: Seat | !Here(st.seats[s]) :: Tokens(st.seats[s]) + Notices(st.pc, s, st.seats[s]) == 1
  {
    ReachableInv(st);
    forall s: Seat | !Here(st.seats[s]) ensures Tokens(st.seats[s]) + Notices(st.pc, s, st.seats[s]) == 1 {
      OnePerSeat(st, s);
    }
    hide Reachable, SeatOk, Faithful, Here, Owed;
    if PresentCount(st) == 4 {
      assert Owed(st.seats[0]) || Owed(st.seats[1]) || Owed(st.seats[2]) || Owed(st.seats[3]);
    }
  }

  // ---- The flag --------------------------------------------------------------------------------------------------

  /** A departure the server has not read: its notice is to be written, or unread. */
  predicate Gone(x: Chair) {
    x.leaving || Left in x.outbox
  }

  predicate FlagOk(st: State) {
    (InRound(st.pc) ==> st.ongoing) && forall i | 0 <= i < |st.seats| :: Gone(st.seats[i]) ==> st.ongoing
  }

  /** When the server lets go no departure is unread. */
  lemma NoneGone(st: State, s: Seat)
    requires Inv(st) && st.pc.Check? && 4 - st.occupied <= 0
    ensures !Gone(st.seats[s])
  {
    Lets(st);
    assert Here(st.seats[s]) && SeatOk(st.pc, s, st.seats[s]);
    hide Counted, Faithful, BatchOk;
  }

  lemma FlagStep(st: State, a: Action)
    requires Inv(st) && Enabled(st, a) && FlagOk(st)
    ensures FlagOk(Next(st, a))
  {
    var st' := Next(st, a);
    if a.Compare? && st'.pc.Release? {
      forall s: Seat ensures !Gone(st.seats[s]) { NoneGone(st, s); }
      hide Inv, Gone;
      forall i | 0 <= i < |st'.seats| ensures !Gone(st'.seats[i]) {
        var s: Seat := i;
        assert !Gone(st.seats[s]);
      }
    } else {
      hide Inv, Clean;
      forall i | 0 <= i < |st'.seats| ensures Gone(st'.seats[i]) ==> st'.ongoing {
        assert Gone(st.seats[i]) ==> st.ongoing;
      }
    }
  }

  lemma {:induction false} RunFlag(st: State, actions: seq<Action>)
    requires Inv(st) && IsRun(st, actions) && FlagOk(st)
    ensures FlagOk(RunOf(st, actions))
    decreases |actions|
  {
    hide Inv, Next, Enabled, FlagOk;
    InvSeats(st);
    if actions != [] {
      NextInv(st, actions[0]);
      FlagStep(st, actions[0]);
      RunFlag(Next(st, actions[0]), actions[1..]);
    }
  }

  /** The flag by which a new thread learns of a barrier is up throughout every round, and also after it as long as a
      departure is unread. */
  lemma FlagIsUp(st: State)
    requires Reachable(st)
    ensures InRound(st.pc) ==> st.ongoing
    ensures |st.seats| == 4 && forall s: Seat :: Gone(st.seats[s]) ==> st.ongoing
  {
    var st0: State, actions :| |st0.seats| == 4 && Initial(st0) && IsRun(st0, actions) && RunOf(st0, actions) == st;
    assert Inv(st0);
    forall i | 0 <= i < 4 ensures !Gone(st0.seats[i]) {
      var s: Seat := i;
      assert CleanSeat(st0.seats[s]);
    }
    hide Inv, IsRun, RunOf, Gone;
    RunFlag(st0, actions);
  }
}
