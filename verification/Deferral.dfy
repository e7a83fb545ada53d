/** Messages of a client that arrive during a barrier are put aside and parsed afterwards: each exactly once,
    in the order received, and never while the barrier flag is set. */
module Deferral {
  import opened Cards
  import opened GameModel
  import opened Protocol

  predicate DrainingEnd(t: Thread) {
    || t.pc.DrainEnd?
    || (t.pc.Parse? && t.pc.after == ToDrainEnd)
    || (t.pc.Notify? && t.pc.after == ToDrainEnd)
  }

  /** The message in hand, if the thread is about to parse one. */
  function InHand(t: Thread): seq<Input> {
    if t.pc.Parse? then [t.pc.m] else []
  }

  predicate Orderly(t: Thread) {
    && Accounted(t)
    && (t.pc.Parse? || DrainingEnd(t) ==> !t.barrier)
    && (!t.barrier && !DrainingEnd(t) ==> t.deferred == [])
    && (t.pc.Notify? ==> !t.barrier)
    && (t.pc.Repeat? ==> t.pc.after == ToTop || t.pc.after == ToServe)
  }

  predicate Accounted(t: Thread) {
    t.received == t.parsed + InHand(t) + t.deferred
  }

  lemma StepFlags(g: Game, ongoing: bool, occupied: int, s: Seat, t: Thread, choice: Choice)
    requires |g.hands| == 4 && ThreadEnabled(t, choice) && Orderly(t)
    ensures var u := ThreadNext(g, ongoing, occupied, s, t, choice);
            Accounted(u) ==> Orderly(u)
  {
    hide Takes, Accounted;
  }

  /** A message moves on: read into the hand, put aside, taken up again, or handed over. */
  lemma Moves(received: seq<Input>, parsed: seq<Input>, deferred: seq<Input>, m: Input)
    requires received == parsed + [m] + deferred
    ensures received == parsed + [] + ([m] + deferred)
    ensures received == (parsed + [m]) + [] + deferred
  {
  }

  lemma ReadAccounted(t: Thread, u: Thread, m: Input)
    requires Accounted(t) && InHand(t) == [] && u.received == t.received + [m] && u.parsed == t.parsed
    requires if InHand(u) == [] then u.deferred == t.deferred + [m]
             else InHand(u) == [m] && u.deferred == t.deferred == []
    ensures Accounted(u)
  {
  }

  lemma ParseAccounted(t: Thread, u: Thread)
    requires Accounted(t) && u.received == t.received && u.deferred == t.deferred
    requires t.pc.Parse? && u.parsed == t.parsed + [t.pc.m] && InHand(u) == []
    ensures Accounted(u)
  {
    Moves(t.received, t.parsed, t.deferred, t.pc.m);
  }

  lemma TakeAccounted(t: Thread, u: Thread)
    requires Accounted(t) && u.received == t.received && u.parsed == t.parsed && t.deferred != []
    requires InHand(t) == [] && InHand(u) == [t.deferred[0]] && u.deferred == t.deferred[1..]
    ensures Accounted(u)
  {
    assert t.deferred == [t.deferred[0]] + t.deferred[1..];
  }

  /** Only reading, deferring, taking up and parsing a message touch the order. */
  lemma StepAccounted(g: Game, ongoing: bool, occupied: int, s: Seat, t: Thread, choice: Choice)
    requires |g.hands| == 4 && ThreadEnabled(t, choice) && Orderly(t)
    ensures Accounted(ThreadNext(g, ongoing, occupied, s, t, choice))
  {
    hide Takes;
    var u := ThreadNext(g, ongoing, occupied, s, t, choice);
    if t.pc.Parse? {
      ParseAccounted(t, u);
    } else if t.pc.Poll? && choice.FromClient? {
      ReadAccounted(t, u, choice.m);
    } else if u.pc.Parse? {
      TakeAccounted(t, u);
    } else {
      assert InHand(u) == InHand(t) && u.received == t.received && u.parsed == t.parsed && u.deferred == t.deferred;
    }
  }

  /** A thread whose messages and place are left alone. */
  lemma KeepOrderly(t: Thread, u: Thread)
    requires Orderly(t) && u == t.(inbox := u.inbox, outbox := u.outbox, log := u.log)
    ensures Orderly(u)
  {
  }

  predicate AllOrderly(st: State) {
    |st.threads| == 4 && forall s: Seat :: Orderly(st.threads[s])
  }

  lemma MainLeavesMessages(st: State, from: Seat, s: Seat)
    requires Typed(st) && MainEnabled(st, from)
    ensures var st' := MainNext(st, from);
            |st'.threads| == 4 &&
            st'.threads[s] == st.threads[s].(inbox := st'.threads[s].inbox, outbox := st'.threads[s].outbox, log := st'.threads[s].log)
  {
    ThreadsStep(st, from);
    hide MainNext;
  }

  lemma NextOrderly(st: State, a: Action)
    requires Typed(st) && Enabled1(st, a) && AllOrderly(st)
    ensures AllOrderly(Next(st, a))
  {
    match a
    case SeatStep(s, choice) =>
      StepAccounted(st.g, st.ongoing, st.occupied, s, st.threads[s], choice);
      StepFlags(st.g, st.ongoing, st.occupied, s, st.threads[s], choice);
      hide Orderly, Accounted, ThreadNext, Takes, DoPlay;
    case MainStep(from) =>
      hide Orderly, MainNext;
      forall s: Seat ensures Orderly(MainNext(st, from).threads[s]) {
        MainLeavesMessages(st, from, s);
        KeepOrderly(st.threads[s], MainNext(st, from).threads[s]);
      }
  }

  lemma {:induction false} RunOrderly(st: State, actions: seq<Action>)
    requires Typed(st) && IsRun(st, actions) && AllOrderly(st)
    ensures AllOrderly(RunOf(st, actions))
    decreases |actions|
  {
    hide AllOrderly, Next, Enabled1;
    if actions != [] {
      NextOrderly(st, actions[0]);
      RunOrderly(Next(st, actions[0]), actions[1..]);
    }
  }

  /** Over any run and for every seat: what was parsed, the message in hand and what is put aside are together
      what the client sent, in that order; nothing is parsed while the barrier flag is set, and outside a
      barrier nothing stays put aside. */
  lemma InOrderOnce(st0: State, actions: seq<Action>, s: Seat)
    requires Initial(st0) && Typed(st0) && IsRun(st0, actions)
    ensures var t := RunOf(st0, actions).threads[s];
            && t.received == t.parsed + InHand(t) + t.deferred
            && (t.pc.Parse? ==> !t.barrier)
            && (!t.barrier && !DrainingEnd(t) ==> t.deferred == [])
  {
    forall u: Seat ensures Orderly(st0.threads[u]) {
      assert Idling(st0.threads[u]);
    }
    hide IsRun, RunOf, Initial;
    RunOrderly(st0, actions);
  }
}
