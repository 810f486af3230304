/** Runs of the session protocol as it is meant to go: a call returns, and returns when its connection is lost. */
module ProtocolTour {
  import opened Wrappers
  import opened ReqIds
  import opened Wire
  import opened ClientState
  import opened Protocol
  import opened ProtocolRuns
  import opened ProtocolStories

  predicate Ordinary(f: Frame, r: Result) {
    f.place == 1 && !f.noReply && Size(f) <= MAX_UNACKED_BYTES && |r.payload| < ID_SPACE
  }

  const CALLED := ONE_SESSION.(calls := {1})

  function Holding(f: Frame, c: Client): Client {
    c.(minted := 1, unacked := [f], unackedBytes := Size(f))
  }

  /** The call has been written on the first connection. */
  function Asked(f: Frame): State {
    State(Holding(f, CONNECTED), Waiting(1, 0), NewSession,
          [FIRST.(accept := Greeted([], true), up := [f], sent := [f])], CALLED)
  }

  function Kept(r: Result): Session {
    NewSession.(lastReq := 1, lastReplyId := 1, lastReply := Reply(1, r))
  }

  function Ran(r: Result): History {
    CALLED.(executed := [Exec(1, r, 1)])
  }

  /** It has been run, and its reply is on the connection. */
  function Replied(f: Frame, r: Result): State {
    State(Holding(f, CONNECTED), Waiting(1, 0), Kept(r).(thread := Serving(0)),
          [FIRST.(accept := Handed, sent := [f], down := [Response(Reply(1, r))])], Ran(r))
  }

  lemma CallIsWritten(before: seq<Step>, f: Frame) returns (steps: seq<Step>)
    requires Reaches(before, STARTED) && f.place == 1 && !f.noReply && Size(f) <= MAX_UNACKED_BYTES
    ensures Reaches(steps, Asked(f))
  {
    hide Reaches;
    QueueOfOne(f);
    var s1 := STARTED.(c := Holding(f, CONNECTED).(queued := [f]), mode := Flushing(1, 0), h := CALLED);
    steps := Next(before, STARTED, BeginCall(f), s1);
    assert Apply(s1, FlushCall(true, 1)).conns == Asked(f).conns;
    steps := Next(steps, s1, FlushCall(true, 1), Asked(f));
  }

  lemma CallIsRun(before: seq<Step>, f: Frame, r: Result) returns (steps: seq<Step>)
    requires Reaches(before, Asked(f)) && Ordinary(f, r)
    ensures Reaches(steps, Replied(f, r))
  {
    hide Reaches;
    QueueOfOne(f);
    QueueOfOne(Response(Reply(1, r)));
    var s1 := Asked(f).(sess := NewSession.(pending := Some(0), thread := Looking),
                        conns := [FIRST.(accept := Handed, up := [f], sent := [f])]);
    var s2 := s1.(sess := NewSession.(thread := Serving(0)));
    var s3 := s1.(sess := NewSession.(thread := Running(0, f, r)), conns := [FIRST.(accept := Handed, sent := [f])],
                  h := Ran(r));
    var s4 := s3.(sess := Kept(r).(thread := Sending(0, Reply(1, r))));
    assert Apply(Asked(f), HandOver(0)).conns == s1.conns;
    steps := Next(before, Asked(f), HandOver(0), s1);
    steps := Next(steps, s1, Take, s2);
    assert Apply(s2, Read(r)).conns[0] == s3.conns[0];
    assert Apply(s2, Read(r)).conns == s3.conns;
    steps := Next(steps, s2, Read(r), s3);
    steps := Next(steps, s3, Complete, s4);
    assert Apply(s4, Send).conns == Replied(f, r).conns;
    steps := Next(steps, s4, Send, Replied(f, r));
  }

  lemma OneHeld(f: Frame)
    ensures TotalSize([]) == 0 && TotalSize([f]) == Size(f)
  {
    TotalSizeAppend([], f);
    assert [] + [f] == [f];
  }

  /** What a client knows once its first call has returned, on connection `k`. */
  function Returned(k: nat): Client {
    CONNECTED.(conn := Some(k), minted := 1, lastReply := 1)
  }

  /** A call that goes well returns what its execution recorded, and nothing is held any more. */
  lemma CallReturns(f: Frame, r: Result) returns (states: seq<State>, steps: seq<Step>)
    requires Ordinary(f, r)
    ensures IsRun(states, steps)
    ensures var s := states[|steps|];
            && s.mode == Idle && s.c == Returned(0) && s.h.received == [Reply(1, r)]
            && s.h.executed == [Exec(1, r, 1)] && s.h.abandoned == {}
  {
    hide Reaches;
    steps := Connects();
    steps := CallIsWritten(steps, f);
    steps := CallIsRun(steps, f, r);
    OneHeld(f);
    QueueOfOne(f);
    QueueOfOne(Response(Reply(1, r)));
    var s := Replied(f, r);
    var t := s.(c := Returned(0), mode := Idle, conns := [FIRST.(accept := Handed, sent := [f])],
                h := Ran(r).(received := [Reply(1, r)]));
    assert Apply(s, Receive).conns[0] == t.conns[0];
    assert Apply(s, Receive).conns == t.conns;
    steps := Next(steps, s, Receive, t);
    states := RunTo(steps, t);
  }

  // --- the connection is lost after the call has run --------------------------------

  /** The first connection once the client has left it, with the reply unread. */
  function Unread0(f: Frame, r: Result): Conn {
    FIRST.(accept := Handed, sent := [f], down := [Response(Reply(1, r))], cut := true)
  }

  /** Back on a second connection, told that the call has run, with the reply still to come. */
  function Advised(f: Frame, r: Result): State {
    State(CONNECTED.(conn := Some(1), minted := 1), Flushing(1, 1), Kept(r).(thread := Serving(0)),
          [Unread0(f, r), Conn(true, 0, Greeted([Reply(1, r)], false), [], [], false, [])], Ran(r))
  }

  lemma ComesBack(before: seq<Step>, f: Frame, r: Result) returns (steps: seq<Step>, s4: State)
    requires Reaches(before, Replied(f, r)) && Ordinary(f, r)
    ensures Reaches(steps, s4)
    ensures s4 == State(Holding(f, CONNECTED).(conn := None), Shaking(1, 1), Kept(r).(thread := Serving(0)),
                        [Unread0(f, r), Conn(true, 0, Snapped(true, 1, [Reply(1, r)]), [], [], false, [])], Ran(r))
  {
    hide Reaches;
    var c := Conn(true, 0, Unread, [], [], false, []);
    var s1 := Replied(f, r).(c := Holding(f, CONNECTED).(conn := None), mode := Reconnecting(1),
                             conns := [Unread0(f, r)]);
    var s2 := s1.(mode := Shaking(1, 1), conns := [Unread0(f, r), c]);
    var s3 := s2.(conns := [Unread0(f, r), c.(accept := Found(true))]);
    s4 := s2.(conns := [Unread0(f, r), c.(accept := Snapped(true, 1, [Reply(1, r)]))]);
    assert Apply(Replied(f, r), ReceiveFails).conns == s1.conns;
    steps := Next(before, Replied(f, r), ReceiveFails, s1);
    assert Apply(s1, Open).conns == s2.conns;
    steps := Next(steps, s1, Open, s2);
    assert Apply(s2, Lookup(1, false)).conns == s3.conns;
    steps := Next(steps, s2, Lookup(1, false), s3);
    OrderInWindow(1, 0);
    assert Apply(s3, Snapshot(1)).conns == s4.conns;
    steps := Next(steps, s3, Snapshot(1), s4);
  }

  lemma IsAdvised(before: seq<Step>, f: Frame, r: Result, s4: State) returns (steps: seq<Step>)
    requires Reaches(before, s4) && Ordinary(f, r)
    requires s4 == State(Holding(f, CONNECTED).(conn := None), Shaking(1, 1), Kept(r).(thread := Serving(0)),
                         [Unread0(f, r), Conn(true, 0, Snapped(true, 1, [Reply(1, r)]), [], [], false, [])], Ran(r))
    ensures Reaches(steps, Advised(f, r))
  {
    hide Reaches;
    QueueOfOne(f);
    QueueOfOne(Hello(true, 1));
    OneHeld(f);
    var s5 := s4.(conns := [Unread0(f, r),
                            Conn(true, 0, Greeted([Reply(1, r)], false), [], [Hello(true, 1)], false, [])]);
    assert Apply(s4, Greet(1, true)).conns[1] == s5.conns[1];
    assert Apply(s4, Greet(1, true)).conns == s5.conns;
    steps := Next(before, s4, Greet(1, true), s5);
    OrderInWindow(1, 1);
    assert Attach(s5.c, 1, true, 1) == Advised(f, r).c;
    assert Apply(s5, HandshakeDone(true, 0)).conns[1] == Advised(f, r).conns[1];
    assert Apply(s5, HandshakeDone(true, 0)).conns == Advised(f, r).conns;
    steps := Next(steps, s5, HandshakeDone(true, 0), Advised(f, r));
  }

  lemma IsToldAgain(before: seq<Step>, f: Frame, r: Result) returns (steps: seq<Step>, t: State)
    requires Reaches(before, Advised(f, r)) && Ordinary(f, r)
    ensures Reaches(steps, t) && t.mode == Idle && t.c == Returned(1)
    ensures t.h == Ran(r).(received := [Reply(1, r)])
  {
    hide Reaches;
    QueueOfOne(Reply(1, r));
    QueueOfOne(Response(Reply(1, r)));
    var s := Advised(f, r);
    var s1 := s.(mode := Waiting(1, 1));
    assert Apply(s, FlushCall(true, 0)).conns[1] == s.conns[1];
    assert Apply(s, FlushCall(true, 0)).conns == s1.conns;
    steps := Next(before, s, FlushCall(true, 0), s1);
    var done := Conn(true, 0, Greeted([], false), [], [], false, []);
    var s2 := s1.(conns := [Unread0(f, r), done.(down := [Response(Reply(1, r))])]);
    assert Apply(s1, SendUnanswered(1, true)).conns[1] == s2.conns[1];
    assert Apply(s1, SendUnanswered(1, true)).conns == s2.conns;
    steps := Next(steps, s1, SendUnanswered(1, true), s2);
    t := s2.(c := Returned(1), mode := Idle, conns := [Unread0(f, r), done], h := Ran(r).(received := [Reply(1, r)]));
    assert TotalSize([]) == 0;
    assert Apply(s2, Receive).conns[1] == done;
    assert Apply(s2, Receive).conns == t.conns;
    steps := Next(steps, s2, Receive, t);
  }

  /** A call whose connection is lost before its reply is read still returns, and has run once. */
  lemma LostReplyIsSentAgain(f: Frame, r: Result) returns (states: seq<State>, steps: seq<Step>)
    requires Ordinary(f, r)
    ensures IsRun(states, steps)
    ensures var s := states[|steps|];
            && s.mode == Idle && s.c == Returned(1) && s.h.received == [Reply(1, r)]
            && s.h.executed == [Exec(1, r, 1)] && s.h.abandoned == {}
  {
    hide Reaches;
    steps := Connects();
    steps := CallIsWritten(steps, f);
    steps := CallIsRun(steps, f, r);
    var s4;
    steps, s4 := ComesBack(steps, f, r);
    steps := IsAdvised(steps, f, r, s4);
    var t;
    steps, t := IsToldAgain(steps, f, r);
    states := RunTo(steps, t);
  }

  // --- the connection is lost before the call is written -------------------------------

  function Cut0(): Conn {
    FIRST.(accept := Greeted([], true), cut := true)
  }

  /** Nothing of the call was written, and the client is to come back. */
  function Unsent(f: Frame): State {
    State(Holding(f, CONNECTED).(conn := None), Reconnecting(1), NewSession, [Cut0()], CALLED)
  }

  /** The call has been sent again, on the second connection. */
  function SentAgain(f: Frame): State {
    State(Holding(f, CONNECTED).(conn := Some(1)), Waiting(1, 1), NewSession,
          [Cut0(), Conn(true, 0, Greeted([], false), [f], [], false, [f])], CALLED)
  }

  lemma CallIsNotWritten(before: seq<Step>, f: Frame) returns (steps: seq<Step>)
    requires Reaches(before, STARTED) && f.place == 1 && !f.noReply && Size(f) <= MAX_UNACKED_BYTES
    ensures Reaches(steps, Unsent(f))
  {
    hide Reaches;
    QueueOfOne(f);
    var s1 := STARTED.(c := Holding(f, CONNECTED).(queued := [f]), mode := Flushing(1, 0), h := CALLED);
    steps := Next(before, STARTED, BeginCall(f), s1);
    assert Apply(s1, FlushCall(false, 0)).conns[0] == Cut0();
    assert Apply(s1, FlushCall(false, 0)).conns == Unsent(f).conns;
    steps := Next(steps, s1, FlushCall(false, 0), Unsent(f));
  }

  lemma CallIsSentAgain(before: seq<Step>, f: Frame) returns (steps: seq<Step>)
    requires Reaches(before, Unsent(f)) && f.place == 1 && !f.noReply
    ensures Reaches(steps, SentAgain(f))
  {
    hide Reaches;
    var s := Unsent(f);
    steps := Returns(before, s);
    OneHeld(f);
    QueueOfOne(f);
    QueueOfOne(Hello(true, 0));
    var s1 := SentAgain(f).(mode := Flushing(1, 1));
    assert Attach(s.c, 1, true, 0) == s1.c;
    assert Apply(Back(s), HandshakeDone(true, 0)).conns[1] == s1.conns[1];
    assert Apply(Back(s), HandshakeDone(true, 0)).conns == s1.conns;
    steps := Next(steps, Back(s), HandshakeDone(true, 0), s1);
    assert Apply(s1, FlushCall(true, 0)).conns[1] == s1.conns[1];
    assert Apply(s1, FlushCall(true, 0)).conns == s1.conns;
    steps := Next(steps, s1, FlushCall(true, 0), SentAgain(f));
  }

  /** The server takes up the second connection, and the call is there. */
  function TakenUp(f: Frame): State {
    SentAgain(f).(sess := NewSession.(thread := Serving(1)),
                  conns := [Shut(Cut0()), Conn(true, 0, Handed, [f], [], false, [f])])
  }

  lemma SecondIsTakenUp(before: seq<Step>, f: Frame) returns (steps: seq<Step>)
    requires Reaches(before, SentAgain(f))
    ensures Reaches(steps, TakenUp(f))
  {
    hide Reaches;
    var s := SentAgain(f);
    var s1 := s.(sess := NewSession.(pending := Some(0), thread := Looking),
                 conns := s.conns[0 := Cut0().(accept := Handed)]);
    var s2 := TakenUp(f).(sess := NewSession.(pending := Some(1), thread := Looking));
    assert Apply(s, HandOver(0)).conns == s1.conns;
    steps := Next(before, s, HandOver(0), s1);
    assert Apply(s1, HandOver(1)).conns == s2.conns;
    steps := Next(steps, s1, HandOver(1), s2);
    steps := Next(steps, s2, Take, TakenUp(f));
  }

  lemma SecondIsServed(before: seq<Step>, f: Frame, r: Result) returns (steps: seq<Step>, t: State)
    requires Reaches(before, TakenUp(f)) && Ordinary(f, r)
    ensures Reaches(steps, t) && t.mode == Waiting(1, 1) && t.h == Ran(r)
    ensures t.c == Holding(f, CONNECTED).(conn := Some(1))
    ensures t.sess == Kept(r).(thread := Serving(1))
    ensures t.conns == [Shut(Cut0()), Conn(true, 0, Handed, [], [Response(Reply(1, r))], false, [f])]
  {
    hide Reaches;
    QueueOfOne(f);
    QueueOfOne(Response(Reply(1, r)));
    var s := TakenUp(f);
    var s1 := s.(sess := NewSession.(thread := Running(1, f, r)), h := Ran(r),
                 conns := [Shut(Cut0()), Conn(true, 0, Handed, [], [], false, [f])]);
    assert Apply(s, Read(r)).conns[1] == s1.conns[1];
    assert Apply(s, Read(r)).conns == s1.conns;
    steps := Next(before, s, Read(r), s1);
    var s2 := s1.(sess := Kept(r).(thread := Sending(1, Reply(1, r))));
    steps := Next(steps, s1, Complete, s2);
    t := s2.(sess := Kept(r).(thread := Serving(1)),
             conns := [Shut(Cut0()), Conn(true, 0, Handed, [], [Response(Reply(1, r))], false, [f])]);
    assert Apply(s2, Send).conns[1] == t.conns[1];
    assert Apply(s2, Send).conns == t.conns;
    steps := Next(steps, s2, Send, t);
  }

  /** A call that was never written is sent again when the client is back, and returns. */
  lemma LostCallIsSentAgain(f: Frame, r: Result) returns (states: seq<State>, steps: seq<Step>)
    requires Ordinary(f, r)
    ensures IsRun(states, steps)
    ensures var s := states[|steps|];
            && s.mode == Idle && s.c == Returned(1) && s.h.received == [Reply(1, r)]
            && s.h.executed == [Exec(1, r, 1)] && s.h.abandoned == {}
  {
    hide Reaches;
    steps := Connects();
    steps := CallIsNotWritten(steps, f);
    steps := CallIsSentAgain(steps, f);
    steps := SecondIsTakenUp(steps, f);
    var s;
    steps, s := SecondIsServed(steps, f, r);
    OneHeld(f);
    QueueOfOne(f);
    QueueOfOne(Response(Reply(1, r)));
    var t := s.(c := Returned(1), mode := Idle, conns := [Shut(Cut0()), Conn(true, 0, Handed, [], [], false, [f])],
                h := Ran(r).(received := [Reply(1, r)]));
    assert Apply(s, Receive).conns[1] == t.conns[1];
    assert Apply(s, Receive).conns == t.conns;
    steps := Next(steps, s, Receive, t);
    states := RunTo(steps, t);
  }

  // --- the server is out of reach --------------------------------------------------------

  lemma KeepsTrying(before: seq<Step>, f: Frame) returns (steps: seq<Step>, t: State)
    requires Reaches(before, Unsent(f))
    ensures Reaches(steps, t) && t.mode == Reconnecting(1) && t.c == Unsent(f).c.(connectFailed := true)
    ensures t.h == CALLED && |t.conns| == 2 && t.sess == NewSession
  {
    hide Reaches;
    var s := Unsent(f);
    var s1 := s.(c := s.c.(connectFailed := true));
    steps := Next(before, s, Unreachable, s1);
    var c := Conn(true, 0, Unread, [], [], false, []);
    var s2 := s.(mode := Shaking(1, 1), conns := [Cut0(), c]);
    assert Apply(s1, Open).conns == s2.conns;
    steps := Next(steps, s1, Open, s2);
    t := s1.(conns := [Cut0(), c.(cut := true)]);
    assert Apply(s2, HandshakeFails).conns == t.conns;
    steps := Next(steps, s2, HandshakeFails, t);
  }

  /** A call that cannot be sent again in time is given up, and nothing of it is held. */
  lemma CallIsGivenUp(f: Frame) returns (states: seq<State>, steps: seq<Step>)
    requires f.place == 1 && !f.noReply && Size(f) <= MAX_UNACKED_BYTES
    ensures IsRun(states, steps)
    ensures var s := states[|steps|];
            s.mode == Idle && s.h.abandoned == {1} && s.h.executed == [] && s.c.unacked == [] && s.c.lastReply == 1
  {
    hide Reaches;
    steps := Connects();
    steps := CallIsNotWritten(steps, f);
    var s;
    steps, s := KeepsTrying(steps, f);
    QueueOfOne(f);
    var t := Apply(s, GiveUp(true));
    steps := Next(steps, s, GiveUp(true), t);
    states := RunTo(steps, t);
  }
}
