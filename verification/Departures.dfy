/** What clients that leave during a barrier can leave behind: a wake-up that `barrier` never reads; and exactly when. */
module Departures {
  import opened Cards
  import opened Barrier

  // ---- Two such runs -----------------------------------------------------------------------------------------------

  lemma {:induction false} RunSnoc(st: State, actions: seq<Action>, a: Action)
    requires |st.seats| == 4 && IsRun(st, actions) && Enabled(RunOf(st, actions), a)
    ensures IsRun(st, actions + [a]) && RunOf(st, actions + [a]) == Next(RunOf(st, actions), a)
    decreases |actions|
  {
    hide Enabled, Next;
    if actions == [] {
      assert ([] + [a])[1..] == [];
    } else {
      RunSnoc(Next(st, actions[0]), actions[1..], a);
      assert (actions + [a])[1..] == actions[1..] + [a];
    }
  }

  lemma ReachableNext(st: State, a: Action)
    requires Reachable(st) && Enabled1(st, a)
    ensures Reachable(Next(st, a))
  {
    var st0: State, actions :| |st0.seats| == 4 && Initial(st0) && IsRun(st0, actions) && RunOf(st0, actions) == st;
    RunSnoc(st0, actions, a);
  }

  /** The step to a state given seat by seat. */
  lemma ThenTo(st: State, a: Action, r: State) returns (st': State)
    requires Reachable(st) && Enabled1(st, a)
    requires |r.seats| == 4 && Next(st, a).(seats := r.seats) == r
    requires forall s: Seat :: Next(st, a).seats[s] == r.seats[s]
    ensures st' == r && Reachable(r)
  {
    assert Next(st, a).seats == r.seats;
    ReachableNext(st, a);
    st' := r;
  }

  lemma StartReachable(st: State)
    requires |st.seats| == 4 && Initial(st)
    ensures Reachable(st)
  {
    assert IsRun(st, []) && RunOf(st, []) == st;
  }

  /** All four seats are asked. */
  lemma FourAsked() returns (st: State)
    ensures var asked := Chair(Running, false, [Ask], []);
            Reachable(st) && st == State(Wait, true, 0, [asked, asked, asked, asked], 0, 0, 0)
  {
    hide Reachable;
    var away, asked := Chair(Running, false, [], []), Chair(Running, false, [Ask], []);
    st := State(Idle, false, 0, [away, away, away, away], 0, 0, 0);
    StartReachable(st);
    st := ThenTo(st, Start, State(AskSeat(0), true, 0, [away, away, away, away], 0, 0, 0));
    st := ThenTo(st, Tell, State(AskSeat(1), true, 0, [asked, away, away, away], 0, 0, 0));
    st := ThenTo(st, Tell, State(AskSeat(2), true, 0, [asked, asked, away, away], 0, 0, 0));
    st := ThenTo(st, Tell, State(AskSeat(3), true, 0, [asked, asked, asked, away], 0, 0, 0));
    st := ThenTo(st, Tell, State(Wait, true, 0, [asked, asked, asked, asked], 0, 0, 0));
  }

  /** Three seats are at the barrier, and the fourth is about to wake the server. */
  lemma FourCome() returns (st: State)
    ensures var here := Chair(Arrived, false, [], []);
            Reachable(st) && st == State(Wait, true, 4, [here, here, here, here.(pc := Waking)], 1, 0, 0)
  {
    hide Reachable;
    var asked, here := Chair(Running, false, [Ask], []), Chair(Arrived, false, [], []);
    st := FourAsked();
    st := ThenTo(st, Consume(0), State(Wait, true, 1, [here, asked, asked, asked], 0, 0, 0));
    st := ThenTo(st, Consume(1), State(Wait, true, 2, [here, here, asked, asked], 0, 0, 0));
    st := ThenTo(st, Consume(2), State(Wait, true, 3, [here, here, here, asked], 0, 0, 0));
    st := ThenTo(st, Consume(3), State(Wait, true, 4, [here, here, here, here.(pc := Waking)], 1, 0, 0));
  }


  /** With one notice in all the pipes, `poll` finds its seat and the batch reads just that. */
  lemma PollReads(st: State, s: Seat)
    requires |st.seats| == 4 && st.pc.Wait? && |st.seats[s].outbox| == 1
    requires forall u: Seat | u != s :: st.seats[u].outbox == []
    ensures Enabled(st, Poll) && Next(st, Poll) == st.(pc := Reading({s}))
    ensures Enabled(Next(st, Poll), Read(s))
    ensures var seats := st.seats[s := st.seats[s].(outbox := [])];
            Next(Next(st, Poll), Read(s)) ==
            if st.seats[s].outbox[0] == Left then st.(seats := seats, pc := AskAgain(s, {}))
            else st.(seats := seats, pc := Reading({}), read := st.read + 1)
  {
    assert Readable(st) == {s};
    assert {s} - {s} == {};
    assert st.seats[s].outbox[1..] == [];
    hide Readable, Clean, Here;
  }

  /** The two steps of such a batch. */
  lemma ReadTo(st: State, s: Seat, r: State) returns (st': State)
    requires Reachable(st) && |st.seats| == |r.seats| == 4 && st.pc.Wait? && |st.seats[s].outbox| == 1
    requires forall u: Seat | u != s :: st.seats[u].outbox == []
    requires st.(seats := r.seats, pc := r.pc, read := r.read) == r
    requires if st.seats[s].outbox[0] == Left then r.pc == AskAgain(s, {}) && r.read == st.read
             else r.pc == Reading({}) && r.read == st.read + 1
    requires forall u: Seat :: r.seats[u] == if u == s then st.seats[s].(outbox := []) else st.seats[u]
    ensures st' == r && Reachable(r)
  {
    PollReads(st, s);
    assert r.seats == st.seats[s := st.seats[s].(outbox := [])];
    hide Reachable, Enabled, Next;
    ReachableNext(st, Poll);
    ReachableNext(Next(st, Poll), Read(s));
    st' := r;
  }

  /** Seat 0 leaves before the wake-up is written, and its successor completes the four once more: the server
      lets go on the first wake-up while the second is still owed.  Nothing in `barrier` will read it. */
  lemma StaleWakeUp() returns (st: State)
    ensures Reachable(st) && st.departures == 1
    ensures st.pc.Release? && !st.ongoing && st.occupied == 4
    ensures |st.seats| == 4 && Owed(st.seats[0]) && st.reached == 2 && st.read == 1
  {
    hide Reachable;
    var here := Chair(Arrived, false, [], []);
    var last := here.(pc := Waking);
    st := Replaced();
    st := ThenTo(st, Wake(3), State(Wait, true, 4, [last, here, here, here.(outbox := [WakeUp])], 2, 0, 1));
    st := ReadTo(st, 3, State(Reading({}), true, 4, [last, here, here, here], 2, 1, 1));
    st := ThenTo(st, EndBatch, State(Check, true, 4, [last, here, here, here], 2, 1, 1));
    st := ThenTo(st, Compare, State(Release(0), false, 4, [last, here, here, here], 2, 1, 1));
  }

  /** Seat 0 has left and its successor has come, while seat 3 is still about to wake the server. */
  lemma Replaced() returns (st: State)
    ensures var here := Chair(Arrived, false, [], []);
            var last := here.(pc := Waking);
            Reachable(st) && st == State(Wait, true, 4, [last, here, here, last], 2, 0, 1)
  {
    hide Reachable;
    var here, gone := Chair(Arrived, false, [], []), Chair(Vacant, false, [], []);
    var last := here.(pc := Waking);
    st := FourCome();
    st := ThenTo(st, Depart(0), State(Wait, true, 3, [gone.(leaving := true), here, here, last], 1, 0, 1));
    st := ThenTo(st, Tells(0), State(Wait, true, 3, [gone.(outbox := [Left]), here, here, last], 1, 0, 1));
    st := ReadTo(st, 0, State(AskAgain(0, {}), true, 3, [gone, here, here, last], 1, 0, 1));
    st := ThenTo(st, AskNew, State(Reading({}), true, 3, [gone.(inbox := [Ask]), here, here, last], 1, 0, 1));
    st := SuccessorComes(st);
  }

  lemma SuccessorComes(asked: State) returns (st: State)
    requires Reachable(asked)
    requires var here := Chair(Arrived, false, [], []);
             asked == State(Reading({}), true, 3, [Chair(Vacant, false, [Ask], []), here, here, here.(pc := Waking)], 1, 0, 1)
    ensures var here := Chair(Arrived, false, [], []);
            var last := here.(pc := Waking);
            Reachable(st) && st == State(Wait, true, 4, [last, here, here, last], 2, 0, 1)
  {
    hide Reachable;
    var here, gone := Chair(Arrived, false, [], []), Chair(Vacant, false, [Ask], []);
    var last, next := here.(pc := Waking), Chair(Running, false, [Ask], []);
    st := ThenTo(asked, EndBatch, State(Check, true, 3, [gone, here, here, last], 1, 0, 1));
    st := ThenTo(st, Compare, State(Wait, true, 3, [gone, here, here, last], 1, 0, 1));
    st := ThenTo(st, Join(0), State(Wait, true, 3, [next, here, here, last], 1, 0, 1));
    st := ThenTo(st, Consume(0), State(Wait, true, 4, [last, here, here, last], 2, 0, 1));
  }

  /** Seat 0 leaves when it is the only one there.  The server reads the departure once the others have come, and
      the successor completes the four before the server looks: it lets go having read no wake-up at all, and the
      first and only one is left behind. */
  lemma UnreadWakeUp() returns (st: State)
    ensures Reachable(st) && st.departures == 1
    ensures st.pc.Release? && !st.ongoing && st.occupied == 4
    ensures |st.seats| == 4 && Owed(st.seats[0]) && st.reached == 1 && st.read == 0
  {
    hide Reachable;
    var here, asked := Chair(Arrived, false, [], []), Chair(Running, false, [Ask], []);
    var told, next := Chair(Vacant, false, [], [Left]), Chair(Vacant, false, [Ask], []);
    var last := here.(pc := Waking);
    st := OneMissing();
    st := ThenTo(st, Tells(0), State(Wait, true, 3, [told, here, here, here], 0, 0, 1));
    st := ReadTo(st, 0, State(AskAgain(0, {}), true, 3, [told.(outbox := []), here, here, here], 0, 0, 1));
    st := ThenTo(st, AskNew, State(Reading({}), true, 3, [next, here, here, here], 0, 0, 1));
    st := ThenTo(st, Join(0), State(Reading({}), true, 3, [asked, here, here, here], 0, 0, 1));
    st := ThenTo(st, Consume(0), State(Reading({}), true, 4, [last, here, here, here], 1, 0, 1));
    st := ThenTo(st, EndBatch, State(Check, true, 4, [last, here, here, here], 1, 0, 1));
    st := ThenTo(st, Compare, State(Release(0), false, 4, [last, here, here, here], 1, 0, 1));
  }

  lemma OneMissing() returns (st: State)
    ensures var here, gone := Chair(Arrived, false, [], []), Chair(Vacant, true, [], []);
            Reachable(st) && st == State(Wait, true, 3, [gone, here, here, here], 0, 0, 1)
  {
    hide Reachable;
    var here, asked, gone := Chair(Arrived, false, [], []), Chair(Running, false, [Ask], []), Chair(Vacant, true, [], []);
    st := FourAsked();
    st := ThenTo(st, Consume(0), State(Wait, true, 1, [here, asked, asked, asked], 0, 0, 0));
    st := ThenTo(st, Depart(0), State(Wait, true, 0, [gone, asked, asked, asked], 0, 0, 1));
    st := ThenTo(st, Consume(1), State(Wait, true, 1, [gone, here, asked, asked], 0, 0, 1));
    st := ThenTo(st, Consume(2), State(Wait, true, 2, [gone, here, here, asked], 0, 0, 1));
    st := ThenTo(st, Consume(3), State(Wait, true, 3, [gone, here, here, here], 0, 0, 1));
  }

  // ---- Exactly when a wake-up can be left behind --------------------------------------------------------------------

  /** Nobody leaves. */
  predicate NobodyLeaves(actions: seq<Action>) {
    forall i | 0 <= i < |actions| :: !actions[i].Depart?
  }

  /** From `st` the state `r` can come about though nobody leaves. */
  ghost predicate Leads(st: State, r: State) {
    |st.seats| == 4 && exists actions :: IsRun(st, actions) && NobodyLeaves(actions) && RunOf(st, actions) == r
  }

  lemma LeadsHere(st: State)
    requires |st.seats| == 4
    ensures Leads(st, st)
  {
    assert IsRun(st, []) && NobodyLeaves([]) && RunOf(st, []) == st;
  }

  lemma LeadsFirst(st: State, a: Action, r: State)
    requires |st.seats| == 4 && Enabled(st, a) && !a.Depart? && Leads(Next(st, a), r)
    ensures Leads(st, r)
  {
    var rest :| IsRun(Next(st, a), rest) && NobodyLeaves(rest) && RunOf(Next(st, a), rest) == r;
    var actions := [a] + rest;
    assert actions[1..] == rest;
    hide Enabled, Next;
    assert IsRun(st, actions) && RunOf(st, actions) == r;
    assert NobodyLeaves(actions);
  }

  lemma LeadsLast(st0: State, st: State, a: Action)
    requires Leads(st0, st) && |st.seats| == 4 && Enabled(st, a) && !a.Depart?
    ensures Leads(st0, Next(st, a))
  {
    var actions :| IsRun(st0, actions) && NobodyLeaves(actions) && RunOf(st0, actions) == st;
    hide Enabled, Next;
    RunSnoc(st0, actions, a);
    assert NobodyLeaves(actions + [a]);
  }

  /** Seat `s` was left during the round, and the notice of it is not yet written. */
  predicate Chasing(st: State, s: Seat) {
    Inv(st) && InRound(st.pc) && st.seats[s].leaving
  }

  /** Only the departure of seat `s` is outstanding: the other three are there, everything else is read, and the
      successor waits for its token. */
  predicate Settled(st: State, s: Seat) {
    && Chasing(st, s) && st.pc.Wait? && st.seats[s] == Chair(Running, true, [], [])
    && forall u: Seat | u != s :: st.seats[u] == Chair(Arrived, false, [], [])
  }

  /** Steps before seat `s` tells of its departure: nobody else leaves, and no new round starts. */
  predicate Calm(a: Action, s: Seat) {
    !a.Depart? && !a.Start? && a != Tells(s)
  }

  /** A seat that was left is not there, and its tokens are used up. */
  lemma LeftSeat(st: State, s: Seat)
    requires Chasing(st, s)
    ensures st.seats[s].inbox == [] && (st.seats[s].pc.Vacant? || st.seats[s].pc.Running?)
    ensures st.seats[s].outbox == [] || st.seats[s].outbox == [WakeUp]
    ensures !Here(st.seats[s]) && st.occupied < 4 && !Answering(st.pc, s)
  {
    assert SeatOk(st.pc, s, st.seats[s]);
    assert Missing(st.pc, s, st.seats[s]);
    hide SeatOk, Missing, Faithful, BatchOk;
    MissingOne(st, s);
  }

  lemma MissingOne(st: State, s: Seat)
    requires |st.seats| == 4 && !Here(st.seats[s])
    ensures PresentCount(st) < 4
  {
    hide Here;
  }

  lemma CalmKeeps(st: State, s: Seat, a: Action)
    requires Chasing(st, s) && Enabled(st, a) && Calm(a, s)
    ensures Chasing(Next(st, a), s) && Next(st, a).departures == st.departures
  {
    hide Inv, Clean, Readable;
    LeftSeat(st, s);
    NextInv(st, a);
    ChasingSeats(st, s);
  }

  // ---- All else settles

  function Has(ready: set<Seat>, s: Seat): nat {
    if s in ready then 1 else 0
  }

  function Unread(ready: set<Seat>): (n: nat)
    ensures n <= 4
  {
    Has(ready, 0) + Has(ready, 1) + Has(ready, 2) + Has(ready, 3)
  }

  /** Work left for the main thread. */
  function MainWork(pc: MainPc): nat {
    match pc
    case AskSeat(i) => 16 + 20 * (4 - i)
    case Wait => 16
    case Reading(ready) => 18 - 4 * Unread(ready)
    case AskAgain(_, ready) => 38 - 4 * Unread(ready)
    case Check => 17
    case _ => 0
  }

  /** Work left for and about one seat. */
  function SeatWork(x: Chair): nat {
    (if x.leaving then 26 else 0) + 5 * multiset(x.outbox)[WakeUp] + 25 * multiset(x.outbox)[Left]
    + 15 * multiset(x.inbox)[Ask] + 5 * multiset(x.inbox)[End]
    + match x.pc case Vacant => 3 case Running => 2 case Waking => 9 case Arrived => 0
  }

  function Work(st: State): nat
    requires |st.seats| == 4
  {
    MainWork(st.pc) + SeatWork(st.seats[0]) + SeatWork(st.seats[1]) + SeatWork(st.seats[2]) + SeatWork(st.seats[3])
  }

  lemma WorkAt(st: State, s: Seat, x: Chair, pc: MainPc)
    requires |st.seats| == 4
    ensures Work(st.(seats := st.seats[s := x], pc := pc))
            == Work(st) - SeatWork(st.seats[s]) + SeatWork(x) - MainWork(st.pc) + MainWork(pc)
  {
    hide SeatWork, MainWork;
  }

  /** Work depends on control and seats only. */
  lemma SameWork(st: State, r: State)
    requires |st.seats| == |r.seats| == 4 && st.pc == r.pc && st.seats == r.seats
    ensures Work(st) == Work(r)
  {
    hide SeatWork, MainWork;
  }

  lemma FirstOut<T>(x: seq<T>, t: T)
    requires x != []
    ensures multiset(x)[t] == multiset(x[1..])[t] + if x[0] == t then 1 else 0
  {
    assert x == [x[0]] + x[1..];
  }

  lemma ConsumeWork(st: State, s: Seat)
    requires |st.seats| == 4 && Enabled(st, Consume(s))
    ensures SeatWork(Next(st, Consume(s)).seats[s]) < SeatWork(st.seats[s])
  {
    FirstOut(st.seats[s].inbox, Ask);
    FirstOut(st.seats[s].inbox, End);
    hide Clean, Here;
  }

  /** Each of these steps leaves less to do. */
  lemma SeatWorkLess(st: State, s: Seat, a: Action)
    requires |st.seats| == 4 && Enabled(st, a)
    requires a == Consume(s) || a == Wake(s) || a == Tells(s) || a == Join(s)
    ensures SeatWork(Next(st, a).seats[s]) < SeatWork(st.seats[s])
  {
    hide Clean, Here;
    if a.Consume? {
      hide SeatWork, Next;
      ConsumeWork(st, s);
    }
  }

  lemma UnreadLess(ready: set<Seat>, s: Seat)
    requires s in ready
    ensures Unread(ready - {s}) == Unread(ready) - 1
  {
  }

  lemma ReadWork(st: State, from: Seat)
    requires |st.seats| == 4 && Enabled(st, Read(from))
    ensures var r := Next(st, Read(from));
            SeatWork(r.seats[from]) + MainWork(r.pc) < SeatWork(st.seats[from]) + MainWork(st.pc)
  {
    hide Clean, Here, Unread;
    FirstOut(st.seats[from].outbox, WakeUp);
    FirstOut(st.seats[from].outbox, Left);
    UnreadLess(st.pc.ready, from);
  }

  lemma PollWork(st: State)
    requires |st.seats| == 4 && Enabled(st, Poll)
    ensures MainWork(Next(st, Poll).pc) < MainWork(st.pc) && Next(st, Poll).seats == st.seats
  {
    hide Clean, Here, Unread, Readable;
    var s: Seat :| s in Readable(st);
    UnreadLess(Readable(st), s);
  }

  lemma WriteWork(st: State, a: Action)
    requires |st.seats| == 4 && Enabled(st, a) && (a.Tell? || a.AskNew?)
    ensures var s := Subject(st, a);
            SeatWork(Next(st, a).seats[s]) + MainWork(Next(st, a).pc) < SeatWork(st.seats[s]) + MainWork(st.pc)
  {
    hide Clean, Here, Unread;
  }

  lemma MainWorkLess(st: State, a: Action)
    requires |st.seats| == 4 && Enabled(st, a)
    requires a.Tell? || a.Poll? || a.Read? || a.AskNew? || a.EndBatch? || (a.Compare? && st.occupied < 4)
    ensures var s := Subject(st, a);
            SeatWork(Next(st, a).seats[s]) + MainWork(Next(st, a).pc) < SeatWork(st.seats[s]) + MainWork(st.pc)
  {
    hide Clean, Here, SeatWork, Readable;
    if a.Read? {
      ReadWork(st, a.from);
    } else if a.Poll? {
      PollWork(st);
    } else if a.Tell? || a.AskNew? {
      WriteWork(st, a);
    }
  }

  lemma WorkLess(st: State, a: Action)
    requires |st.seats| == 4 && Enabled(st, a)
    requires !a.Start? && !a.Free? && !a.Depart? && (a.Compare? ==> st.occupied < 4)
    ensures Work(Next(st, a)) < Work(st)
  {
    var s, r := Subject(st, a), Next(st, a);
    OnlySubject(st, a);
    WorkAt(st, s, r.seats[s], r.pc);
    SameWork(r, st.(seats := st.seats[s := r.seats[s]], pc := r.pc));
    if a.Consume? || a.Wake? || a.Tells? || a.Join? {
      SeatWorkLess(st, s, a);
      assert r.pc == st.pc;
    } else {
      MainWorkLess(st, a);
    }
    hide Next, Enabled, SeatWork, MainWork, Work;
  }

  /** As long as anything else is outstanding, a step that does not concern the departure can be taken. */
  lemma CalmStep(st: State, s: Seat) returns (a: Action)
    requires Chasing(st, s) && !Settled(st, s)
    ensures Enabled(st, a) && Calm(a, s) && !a.Free? && (a.Compare? ==> st.occupied < 4)
  {
    LeftSeat(st, s);
    if !st.pc.Wait? {
      a := MainStep(st);
    } else if Readable(st) != {} {
      a := Poll;
    } else {
      forall u: Seat ensures st.seats[u].outbox == [] {
        assert u !in Readable(st);
      }
      if st.seats[s].pc.Vacant? {
        a := Join(s);
      } else {
        assert st.seats[s] == Chair(Running, true, [], []);
        var u: Seat :| u != s && st.seats[u] != Chair(Arrived, false, [], []);
        assert SeatOk(st.pc, u, st.seats[u]);
        a := SeatStep(st, u);
      }
    }
  }

  lemma MainStep(st: State) returns (a: Action)
    requires Inv(st) && InRound(st.pc) && !st.pc.Wait? && st.occupied < 4
    ensures Enabled(st, a) && (a.Tell? || a.Read? || a.AskNew? || a.EndBatch? || a.Compare?)
  {
    hide Counted, Faithful, SeatOk;
    match st.pc
    case AskSeat(_) => a := Tell;
    case AskAgain(_, _) => a := AskNew;
    case Check => a := Compare;
    case Reading(ready) =>
      if ready == {} {
        a := EndBatch;
      } else {
        var u := Least(ready);
        a := Read(u);
      }
  }

  lemma Least(ready: set<Seat>) returns (s: Seat)
    requires ready != {}
    ensures s in ready && forall u: Seat | u < s :: u !in ready
  {
    if 0 in ready { s := 0; } else if 1 in ready { s := 1; } else if 2 in ready { s := 2; } else {
      s := 3;
      var u: Seat :| u in ready;
    }
  }

  lemma SeatStep(st: State, u: Seat) returns (a: Action)
    requires |st.seats| == 4 && st.pc.Wait? && SeatOk(st.pc, u, st.seats[u]) && st.seats[u].outbox == []
    requires st.seats[u] != Chair(Arrived, false, [], [])
    ensures Enabled(st, a) && (a == Consume(u) || a == Wake(u) || a == Tells(u) || a == Join(u))
  {
    var x := st.seats[u];
    a := if x.leaving then Tells(u) else if x.pc.Waking? then Wake(u) else if x.pc.Vacant? then Join(u) else Consume(u);
  }

  /** Whatever the state, everything but the departure can be settled first. */
  lemma Settle(st: State, s: Seat) returns (r: State)
    requires Chasing(st, s)
    ensures Leads(st, r) && Settled(r, s) && r.departures == st.departures
    decreases Work(st)
  {
    hide Inv, Next, Enabled, Settled, Work, Leads;
    ChasingSeats(st, s);
    if Settled(st, s) {
      LeadsHere(st);
      r := st;
    } else {
      var a := CalmStep(st, s);
      CalmKeeps(st, s, a);
      WorkLess(st, a);
      r := Settle(Next(st, a), s);
      LeadsFirst(st, a, r);
    }
  }

  lemma ChasingSeats(st: State, s: Seat)
    requires Chasing(st, s)
    ensures |st.seats| == 4
  {
  }

  // ---- The successor overtakes

  /** A step to a state given by what changes in one seat. */
  lemma LeadsTo(st0: State, st: State, a: Action, r: State)
    requires Leads(st0, st) && |st.seats| == 4 && Enabled(st, a) && !a.Depart?
    requires |r.seats| == 4 && Next(st, a).(seats := r.seats) == r
    requires forall u: Seat :: Next(st, a).seats[u] == r.seats[u]
    ensures Leads(st0, r)
  {
    assert Next(st, a).seats == r.seats;
    hide Leads, Enabled, Next;
    LeadsLast(st0, st, a);
  }

  /** The successor is asked while the server is still in the batch that read the departure, and completes the four
      before the server looks. */
  lemma Overtakes(st0: State, st: State, s: Seat) returns (r: State)
    requires Leads(st0, st) && Settled(st, s)
    ensures Leads(st0, r) && r.pc.Release? && r.departures == st.departures
    ensures |r.seats| == 4 && Owed(r.seats[s])
  {
    var m := AsksSuccessor(st0, st, s);
    r := Completes(st0, m, s);
  }

  /** The departure is told, found by `poll`, read, and answered with a new token. */
  lemma AsksSuccessor(st0: State, st: State, s: Seat) returns (r: State)
    requires Leads(st0, st) && Settled(st, s)
    ensures Leads(st0, r) && |st.seats| == |r.seats| == 4 && st.occupied == 3
    ensures r == st.(seats := st.seats[s := Chair(Running, false, [Ask], [])], pc := Reading({}))
  {
    ThreeHere(st, s);
    hide Leads, Settled, Clean, Here, Readable;
    var q := st.seats;
    var r1 := st.(seats := q[s := Chair(Running, false, [], [Left])]);
    var r2 := st.(seats := q[s := Chair(Running, false, [], [])], pc := AskAgain(s, {}));
    r := st.(seats := q[s := Chair(Running, false, [Ask], [])], pc := Reading({}));
    LeadsTo(st0, st, Tells(s), r1);
    PollReads(r1, s);
    LeadsLast(st0, r1, Poll);
    LeadsTo(st0, Next(r1, Poll), Read(s), r2);
    LeadsTo(st0, r2, AskNew, r);
  }

  /** The successor is the fourth. */
  lemma Completes(st0: State, st: State, s: Seat) returns (r: State)
    requires Leads(st0, st) && |st.seats| == 4 && st.pc == Reading({}) && st.occupied == 3
    requires st.seats[s] == Chair(Running, false, [Ask], [])
    ensures Leads(st0, r) && r.pc.Release? && r.departures == st.departures
    ensures |r.seats| == 4 && Owed(r.seats[s])
  {
    hide Leads, Clean, Here, Readable;
    var r1 := st.(seats := st.seats[s := Chair(Waking, false, [], [])], occupied := 4, reached := st.reached + 1);
    var r2 := r1.(pc := Check);
    r := r1.(pc := Release(0), ongoing := false);
    LeadsTo(st0, st, Consume(s), r1);
    LeadsTo(st0, r1, EndBatch, r2);
    LeadsTo(st0, r2, Compare, r);
  }

  lemma ThreeHere(st: State, s: Seat)
    requires Settled(st, s)
    ensures |st.seats| == 4 && st.occupied == 3
    ensures st.seats[s] == Chair(Running, true, [], []) && st.pc.Wait?
    ensures forall u: Seat | u != s :: st.seats[u].outbox == []
  {
    hide SeatOk, Faithful, BatchOk;
    assert !Here(st.seats[s]) && forall u: Seat | u != s :: Here(st.seats[u]);
    ThreeOfFour(st, s);
  }

  lemma ThreeOfFour(st: State, s: Seat)
    requires |st.seats| == 4 && !Here(st.seats[s]) && forall u: Seat | u != s :: Here(st.seats[u])
    ensures PresentCount(st) == 3
  {
    hide Here;
  }

  // ---- The exact condition

  /** Wherever the server lets go from here on, provided that nobody (else) leaves, no wake-up is left behind. */
  ghost predicate Safe(st: State) {
    forall r :: Leads(st, r) && r.pc.Release? ==> OwedCount(r) == 0
  }

  /** From every reachable state of a round, every departure can leave a wake-up behind: whichever seat it is,
      whoever is there or has left before, and though nobody leaves any more. */
  lemma DepartureLeavesWakeUp(st: State, s: Seat) returns (r: State)
    requires Reachable(st) && InRound(st.pc) && Enabled1(st, Depart(s))
    ensures Leads(Next(st, Depart(s)), r) && r.pc.Release? && r.departures == st.departures + 1
    ensures |r.seats| == 4 && Owed(r.seats[s]) && OwedCount(r) > 0
    ensures !Safe(Next(st, Depart(s)))
  {
    var st1 := Next(st, Depart(s));
    ReachableInv(st);
    NextInv(st, Depart(s));
    assert Chasing(st1, s);
    hide Reachable, Chasing, Leads, Settled, Next;
    var m := Settle(st1, s);
    r := Overtakes(st1, m, s);
    OwedOne(r, s);
    hide OwedCount, Owed;
  }

  lemma OwedOne(st: State, s: Seat)
    requires |st.seats| == 4 && Owed(st.seats[s])
    ensures OwedCount(st) > 0
  {
    hide Owed;
  }

  /** Without departures so far the state is safe. */
  lemma QuietIsSafe(st: State)
    requires Inv(st) && st.departures == 0
    ensures Safe(st)
  {
    forall r | Leads(st, r) && r.pc.Release? ensures OwedCount(r) == 0 {
      var actions :| IsRun(st, actions) && NobodyLeaves(actions) && RunOf(st, actions) == r;
      hide Leads, Inv, IsRun, RunOf, NobodyLeaves, OwedCount;
      QuietRun(st, actions);
      QuietRelease(r);
    }
  }

  lemma {:induction false} QuietRun(st: State, actions: seq<Action>)
    requires Inv(st) && IsRun(st, actions) && NobodyLeaves(actions) && st.departures == 0
    ensures Inv(RunOf(st, actions)) && RunOf(st, actions).departures == 0
    decreases |actions|
  {
    hide Inv, Enabled;
    InvSeats(st);
    if actions != [] {
      NextInv(st, actions[0]);
      assert Next(st, actions[0]).departures == 0;
      hide Next;
      QuietRun(Next(st, actions[0]), actions[1..]);
    }
  }

  lemma QuietRelease(st: State)
    requires Inv(st) && st.pc.Release? && st.departures == 0
    ensures OwedCount(st) == 0
  {
    forall s: Seat ensures !Owed(st.seats[s]) {
      assert TidySeat(st.pc, s, st.seats[s]);
    }
    hide Owed;
  }

  /** The actions stay within one call of `barrier`. */
  predicate WithinRound(st: State, actions: seq<Action>)
    requires |st.seats| == 4 && IsRun(st, actions)
    decreases |actions|
  {
    InRound(st.pc) && (actions == [] || WithinRound(Next(st, actions[0]), actions[1..]))
  }

  /** Every state along the way is safe. */
  ghost predicate SafeThroughout(st: State, actions: seq<Action>)
    requires |st.seats| == 4 && IsRun(st, actions)
    decreases |actions|
  {
    Safe(st) && (actions == [] || SafeThroughout(Next(st, actions[0]), actions[1..]))
  }

  /** The exact condition: a round is certain, all the way, to leave no wake-up behind if and only if no thread
      leaves it. */
  lemma {:induction false} SafeIffNobodyLeaves(st: State, actions: seq<Action>)
    requires Reachable(st) && |st.seats| == 4 && st.departures == 0
    requires IsRun(st, actions) && WithinRound(st, actions)
    ensures SafeThroughout(st, actions) <==> NobodyLeaves(actions)
    decreases |actions|
  {
    ReachableInv(st);
    QuietIsSafe(st);
    hide Reachable, Inv, Safe;
    if actions != [] {
      var a, rest := actions[0], actions[1..];
      if a.Depart? {
        var r := DepartureLeavesWakeUp(st, a.s);
        assert !SafeThroughout(Next(st, a), rest);
      } else {
        ReachableNext(st, a);
        assert Next(st, a).departures == 0;
        hide Next, Enabled;
        SafeIffNobodyLeaves(Next(st, a), rest);
        NobodyFirst(actions);
      }
    }
  }

  lemma NobodyFirst(actions: seq<Action>)
    requires actions != [] && !actions[0].Depart?
    ensures NobodyLeaves(actions) <==> NobodyLeaves(actions[1..])
  {
    forall i | 0 < i < |actions| ensures actions[i] == actions[1..][i - 1] { }
    if NobodyLeaves(actions[1..]) {
      forall i | 0 <= i < |actions| ensures !actions[i].Depart? {
        if i > 0 { assert !actions[1..][i - 1].Depart?; }
      }
    }
  }
}
