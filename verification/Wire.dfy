/** common.cpp: messages cut out of a byte stream, and bytes pushed into one, character by character. */
module Wire {
  import opened Cards
  import opened Client
  import opened Text
  import opened Messages
  import opened Codec

  /** A message is given up once more than this many bytes have been read without a line end. */
  const MAX_BUFFER_SIZE := 90

  // ---- Frames ------------------------------------------------------------------------------------------------

  /** The first `k` characters end in a line end. */
  predicate EndsAt(s: string, k: int) {
    2 <= k <= |s| && s[k - 2..k] == CRLF
  }

  /** The first line end at or after `k`, or 0 when there is none. */
  function EndFrom(s: string, k: nat): (e: nat)
    requires k <= |s| + 1
    ensures e == 0 || (k <= e && EndsAt(s, e))
    ensures forall i | k <= i <= |s| && (e == 0 || i < e) :: !EndsAt(s, i)
    decreases |s| + 1 - k
  {
    if k > |s| then 0 else if EndsAt(s, k) then k else EndFrom(s, k + 1)
  }

  /** Length of the first frame of a stream, 0 if it holds no complete one. */
  function FrameEnd(s: string): nat {
    EndFrom(s, 0)
  }

  lemma FirstEnd(s: string, k: nat)
    requires EndsAt(s, k) && forall i | 0 <= i < k :: !EndsAt(s, i)
    ensures FrameEnd(s) == k
  {
  }

  /** A socket: bytes still to come, then the end of the stream; bytes sent; and how many bytes the system takes
      at each write, nothing or less being an error. */
  class Socket {
    var incoming: string
    var outgoing: string
    var capacity: seq<int>

    constructor (incoming: string, capacity: seq<int>)
      ensures this.incoming == incoming && outgoing == [] && this.capacity == capacity
    {
      this.incoming, outgoing, this.capacity := incoming, [], capacity;
    }

    /** `read` of one byte. */
    method Read() returns (n: int, c: char)
      modifies this`incoming
      ensures old(incoming) == [] ==> n == 0 && incoming == []
      ensures old(incoming) != [] ==> n == 1 && c == old(incoming)[0] && incoming == old(incoming)[1..]
    {
      if incoming == [] {
        return 0, ' ';
      }
      n, c := 1, incoming[0];
      incoming := incoming[1..];
    }

    /** `read_from_socket`: the line end is looked for before the length is, so a message may have one byte more
        than the bound. */
    method ReadFromSocket() returns (result: int, buffer: string)
      modifies this`incoming
      ensures var s := old(incoming); var k := FrameEnd(s); var most := MAX_BUFFER_SIZE + 1;
              if 0 < k <= most then result == k && buffer == s[..k] && incoming == s[k..]
              else if |s| >= most then result == -1 && buffer == s[..most] && incoming == s[most..]
              else result == 0 && buffer == s && incoming == []
    {
      ghost var s := incoming;
      buffer := "";
      var total := 0;
      while true
        invariant total == |buffer| <= MAX_BUFFER_SIZE && total <= |s|
        invariant buffer == s[..total] && incoming == s[total..]
        invariant forall i | 0 <= i <= total :: !EndsAt(s, i)
        decreases |incoming|
      {
        var n, c := Read();
        total := total + n;
        if n <= 0 {
          assert s[..|s|] == s;
          return n, buffer;
        }
        buffer := buffer + [c];
        assert EndsAt(buffer, total) <==> EndsAt(s, total);
        if |buffer| >= 2 && buffer[|buffer| - 2..] == CRLF {
          FirstEnd(s, total);
          return |buffer|, buffer;
        }
        if total > MAX_BUFFER_SIZE {
          return -1, buffer;
        }
      }
    }

    /** `write`: takes some of the bytes, or fails. */
    method Write(s: string) returns (n: int)
      modifies this
      ensures n <= |s| && incoming == old(incoming)
      ensures outgoing == old(outgoing) + if n > 0 then s[..n] else []
    {
      n := if capacity == [] then -1 else if capacity[0] < |s| then capacity[0] else |s|;
      capacity := if capacity == [] then [] else capacity[1..];
      if n > 0 {
        outgoing := outgoing + s[..n];
      }
    }

    /** `write_to_socket`: however the system splits the writes, the bytes go out in order; the call reports the
        whole length exactly when they all did. */
    method WriteToSocket(buffer: string) returns (result: int)
      modifies this
      ensures incoming == old(incoming)
      ensures old(outgoing) <= outgoing <= old(outgoing) + buffer
      ensures result == |buffer| <==> outgoing == old(outgoing) + buffer
      ensures result != |buffer| ==> result <= 0
    {
      var at := 0;
      while at < |buffer|
        invariant at <= |buffer| && outgoing == old(outgoing) + buffer[..at] && incoming == old(incoming)
      {
        var n := Write(buffer[at..]);
        if n <= 0 {
          return n;
        }
        assert buffer[..at] + buffer[at..][..n] == buffer[..at + n];
        at := at + n;
      }
      assert buffer[..at] == buffer;
      return |buffer|;
    }
  }

  // ---- Printed messages are frames ---------------------------------------------------------------------------

  predicate NoBreak(s: string) {
    forall i | 0 <= i < |s| :: s[i] != '\n'
  }

  lemma NoBreakAppend(a: string, b: string)
    requires NoBreak(a) && NoBreak(b)
    ensures NoBreak(a + b)
  {
  }

  lemma NatNoBreak(n: nat)
    ensures NoBreak(NatText(n))
  {
    NatDigits(n);
  }

  lemma {:induction false} CardsNoBreak(cards: seq<Card>)
    ensures NoBreak(CardsText(cards))
  {
    if cards != [] {
      CardsNoBreak(cards[1..]);
      assert NoBreak(CardText(cards[0]));
      NoBreakAppend(CardText(cards[0]), CardsText(cards[1..]));
    }
  }

  lemma {:induction false} PairsNoBreak(ps: seq<SeatScore>)
    ensures NoBreak(PairsText(ps))
  {
    if ps != [] {
      NatNoBreak(ps[0].points);
      NoBreakAppend([SeatChar(ps[0].seat)], NatText(ps[0].points));
      PairsNoBreak(ps[1..]);
      NoBreakAppend(PairText(ps[0]), PairsText(ps[1..]));
    }
  }

  /** A printed message is one line. */
  lemma PrintIsLine(m: ServerMessage)
    requires WellFormed(m)
    ensures var s := Print(m); |s| >= 2 && s[|s| - 2..] == CRLF && NoBreak(s[..|s| - 2])
  {
    hide NatText, CardsText, PairsText, Ordered;
    match m
    case DealMsg(kind, starter, hand) =>
      NatNoBreak(kind);
      CardsNoBreak(hand);
      Line("DEAL" + NatText(kind) + [SeatChar(starter)] + CardsText(hand));
    case TrickMsg(n, cards) =>
      NatNoBreak(n);
      CardsNoBreak(cards);
      Line("TRICK" + NatText(n) + CardsText(cards));
    case TakenMsg(n, cards, taker) =>
      NatNoBreak(n);
      CardsNoBreak(cards);
      Line("TAKEN" + NatText(n) + CardsText(cards) + [SeatChar(taker)]);
    case ScoreMsg(points) =>
      PairsNoBreak(Ordered(points));
      Line("SCORE" + PairsText(Ordered(points)));
    case TotalMsg(points) =>
      PairsNoBreak(Ordered(points));
      Line("TOTAL" + PairsText(Ordered(points)));
    case WrongMsg(n) =>
      NatNoBreak(n);
      Line("WRONG" + NatText(n));
  }

  lemma Line(body: string)
    requires NoBreak(body)
    ensures var s := body + CRLF; s[|s| - 2..] == CRLF && s[..|s| - 2] == body
  {
  }

  /** Whatever follows a line, the first frame is the line. */
  lemma LineIsFrame(line: string, rest: string)
    requires |line| >= 2 && line[|line| - 2..] == CRLF && NoBreak(line[..|line| - 2])
    ensures FrameEnd(line + rest) == |line|
  {
    var s, k := line + rest, |line|;
    assert s[k - 2..k] == line[k - 2..];
    forall i | 0 <= i < k ensures !EndsAt(s, i) {
      if 2 <= i {
        assert s[i - 2..i][1] == s[i - 1] == line[i - 1];
        if i < k - 1 {
          assert line[i - 1] == line[..k - 2][i - 1];
        } else {
          assert line[k - 2..][0] == line[k - 2] == '\r';
        }
      }
    }
    FirstEnd(s, k);
  }

  // ---- Lengths ---------------------------------------------------------------------------------------------------

  function Pow10(d: nat): nat {
    if d == 0 then 1 else 10 * Pow10(d - 1)
  }

  lemma {:induction false} NatLength(n: nat, d: nat)
    requires d > 0 && n < Pow10(d)
    ensures |NatText(n)| <= d
  {
    if n >= 10 {
      assert d > 1 by { assert Pow10(1) == 10 * Pow10(0); }
      NatLength(n / 10, d - 1);
    }
  }

  /** Scores of at most twenty digits, as every 64-bit number has. */
  predicate Fits(m: ServerMessage) {
    WellFormed(m)
    && (m.ScoreMsg? || m.TotalMsg? ==> forall i | 0 <= i < 4 :: m.points[i] < Pow10(20))
  }

  lemma PairsLength(points: seq<int>)
    requires |points| == 4 && forall i | 0 <= i < 4 :: 0 <= points[i] < Pow10(20)
    ensures |PairsText(Ordered(points))| <= 84
  {
    hide Pow10, NatText;
    var ps := Ordered(points);
    NatLength(points[0], 20);
    NatLength(points[1], 20);
    NatLength(points[2], 20);
    NatLength(points[3], 20);
    assert ps[1..][1..] == ps[2..] && ps[2..][1..] == ps[3..] && ps[3..][1..] == [];
    assert |PairsText(ps[3..])| <= 21 + |PairsText([])|;
    assert |PairsText(ps[2..])| <= 42;
    assert |PairsText(ps[1..])| <= 63;
  }

  lemma {:induction false} PowPositive(d: nat)
    ensures Pow10(d) > 0
  {
    if d > 0 { PowPositive(d - 1); }
  }

  lemma {:induction false} NatLonger(n: nat, d: nat)
    requires n >= Pow10(d)
    ensures |NatText(n)| > d
  {
    if d > 0 {
      PowPositive(d - 1);
      NatLonger(n / 10, d - 1);
    }
  }

  lemma PairsOfTwenty(n: nat)
    requires |NatText(n)| == 20
    ensures |PairsText(Ordered([n, n, n, n]))| == 84
  {
    hide NatText;
    var ps := Ordered([n, n, n, n]);
    assert ps[1..][1..] == ps[2..] && ps[2..][1..] == ps[3..] && ps[3..][1..] == [];
    assert |PairsText(ps[3..])| == 21 + |PairsText([])|;
    assert |PairsText(ps[2..])| == 42;
    assert |PairsText(ps[1..])| == 63;
  }

  /** The bound is reached: as far as the format goes, a SCORE of four twenty-digit numbers is 91 bytes long. */
  lemma BoundReached(n: nat)
    requires Pow10(19) <= n < Pow10(20)
    ensures var m := ScoreMsg([n, n, n, n]); Fits(m) && |Print(m)| == MAX_BUFFER_SIZE + 1
  {
    NatLonger(n, 19);
    NatLength(n, 20);
    PairsOfTwenty(n);
    hide Pow10, NatText, PairsText, Ordered;
  }

  /** Every message is within what `read_from_socket` accepts. */
  lemma PrintFits(m: ServerMessage)
    requires Fits(m)
    ensures |Print(m)| <= MAX_BUFFER_SIZE + 1
  {
    hide NatText, CardsText, PairsText, Ordered, Pow10;
    match m
    case DealMsg(kind, starter, hand) =>
      TrickNumbers(kind);
      CardsLength(hand);
    case TrickMsg(n, cards) =>
      TrickNumbers(n);
      CardsLength(cards);
    case TakenMsg(n, cards, taker) =>
      TrickNumbers(n);
      CardsLength(cards);
    case ScoreMsg(points) => PairsLength(points);
    case TotalMsg(points) => PairsLength(points);
    case WrongMsg(n) => TrickNumbers(n);
  }

  // ---- Whole streams ------------------------------------------------------------------------------------------------

  predicate AllFit(ms: seq<ServerMessage>) {
    forall i | 0 <= i < |ms| :: Fits(ms[i])
  }

  function Stream(ms: seq<ServerMessage>): string
    requires AllFit(ms)
  {
    if ms == [] then []
    else
      assert Fits(ms[0]);
      Print(ms[0]) + Stream(ms[1..])
  }

  /** What repeated reading cuts a stream into; it stops at the end, and at a message that is too long. */
  function Frames(s: string): seq<string>
    decreases |s|
  {
    var k := FrameEnd(s);
    if 0 < k <= MAX_BUFFER_SIZE + 1 then [s[..k]] + Frames(s[k..]) else []
  }

  function Prints(ms: seq<ServerMessage>): (r: seq<string>)
    requires AllFit(ms)
    ensures |r| == |ms| && forall i | 0 <= i < |r| :: Fits(ms[i]) && r[i] == Print(ms[i])
  {
    seq(|ms|, i requires 0 <= i < |ms| => assert Fits(ms[i]); Print(ms[i]))
  }

  lemma FirstOfStream(ms: seq<ServerMessage>)
    requires ms != [] && AllFit(ms)
    ensures Fits(ms[0]) && WellFormed(ms[0]) && AllFit(ms[1..])
    ensures var s, p := Stream(ms), Print(ms[0]);
            && FrameEnd(s) == |p| && 2 <= |p| <= MAX_BUFFER_SIZE + 1
            && |s| >= |p| && s[..|p|] == p && s[|p|..] == Stream(ms[1..])
  {
    assert Fits(ms[0]);
    PrintIsLine(ms[0]);
    PrintFits(ms[0]);
    hide Print, FrameEnd, Fits, WellFormed;
    LineIsFrame(Print(ms[0]), Stream(ms[1..]));
  }

  /** Reading back the concatenation of any list of messages gives exactly that list. */
  lemma {:induction false} StreamInverse(ms: seq<ServerMessage>)
    requires AllFit(ms)
    ensures Frames(Stream(ms)) == Prints(ms)
    decreases |ms|
  {
    hide FrameEnd, Print, Fits, WellFormed;
    if ms == [] {
      EmptyFrame();
    } else {
      FirstOfStream(ms);
      StreamInverse(ms[1..]);
      assert Prints(ms) == [Print(ms[0])] + Prints(ms[1..]);
    }
  }

  lemma EmptyFrame()
    ensures FrameEnd([]) == 0
  {
  }

  lemma TrickStays(v: View, m: ServerMessage)
    requires WellFormed(m) && 1 <= v.trickNumber <= 14
    ensures 1 <= Receive(v, m).0.trickNumber <= 14
  {
  }

  /** What an automatic client writes while it reads these messages. */
  function Replies(v: View, ms: seq<ServerMessage>): seq<string> {
    if ms == [] then []
    else
      var n := |ms| - 1;
      var u := ReceiveAll(v, ms[..n]);
      Replies(v, ms[..n]) + if ms[n].TrickMsg? && Accepts(u, ms[n]) then [Answered(u, ms[n])] else []
  }

  function Answered(v: View, m: ServerMessage): string {
    TrickText(if v.trickNumber < 0 then 0 else v.trickNumber, match Receive(v, m).1 case None => [] case Some(c) => [c])
  }

  lemma ReplyIsAnswer(v: View, m: ServerMessage)
    requires Fits(m) && 1 <= v.trickNumber <= 14
    ensures !BusyCheck(Print(m))
    ensures ReceiveText(v, Print(m)) == Receive(v, m)
    ensures Reply(v, Print(m)) == if m.TrickMsg? && Accepts(v, m) then Some(Answered(v, m)) else None
  {
    DecodePrint(m, v.trickNumber);
    hide Print, BusyCheck, DealCheck, WrongCheck, TakenCheck, ScoresCheck, TrickCheck, TrickText, Answer;
    TextIsMessage(v, m);
  }

  /** A client that reads a stream of printed messages byte by byte: every message is heard as it was sent, the
      view is what those messages make of it, and each TRICK of its own number is answered. */
  method Listen(socket: Socket, k: Klient, ghost ms: seq<ServerMessage>) returns (replies: seq<string>)
    requires 1 <= k.trickNumber <= 14 && AllFit(ms)
    requires socket.incoming == Stream(ms)
    modifies socket, k
    ensures k.State() == ReceiveAll(old(k.State()), ms) && socket.incoming == []
    ensures replies == Replies(old(k.State()), ms)
  {
    hide FrameEnd, Print, Decode, BusyCheck, Receive, Fits, WellFormed, Reply, Answered, ReceiveText;
    ghost var v, i := k.State(), 0;
    assert ms[0..] == ms;
    replies := [];
    while true
      invariant i <= |ms| && 1 <= k.trickNumber <= 14
      invariant AllFit(ms[i..]) && socket.incoming == Stream(ms[i..])
      invariant k.State() == ReceiveAll(v, ms[..i]) && replies == Replies(v, ms[..i])
      decreases |socket.incoming|
    {
      if i == |ms| {
        EmptyFrame();
      } else {
        FirstOfStream(ms[i..]);
        Onward(v, ms, i, k.State());
      }
      var result, message := socket.ReadFromSocket();
      if result <= 0 {
        assert ms[..i] == ms;
        return;
      }
      assert message == Print(ms[i]);
      var reply, closed := HandleMessage(k, message);
      if closed {
        return;
      }
      if reply.Some? {
        replies := replies + [reply.value];
      }
      i := i + 1;
    }
  }

  lemma Onward(v: View, ms: seq<ServerMessage>, i: nat, u: View)
    requires i < |ms| && AllFit(ms) && u == ReceiveAll(v, ms[..i]) && 1 <= u.trickNumber <= 14
    ensures Fits(ms[i]) && WellFormed(ms[i]) && !BusyCheck(Print(ms[i])) && ms[i..][0] == ms[i] && ms[i..][1..] == ms[i + 1..]
    ensures var w := ReceiveText(u, Print(ms[i])).0; w == ReceiveAll(v, ms[..i + 1]) && 1 <= w.trickNumber <= 14
    ensures Replies(v, ms[..i + 1]) == Replies(v, ms[..i])
            + match Reply(u, Print(ms[i])) case None => [] case Some(text) => [text]
  {
    assert Fits(ms[i]);
    assert ms[..i + 1][..i] == ms[..i];
    ReplyIsAnswer(u, ms[i]);
    TrickStays(u, ms[i]);
    hide Print, Reply, Receive, Answered, ReceiveText, BusyCheck, Accepts;
  }
}
