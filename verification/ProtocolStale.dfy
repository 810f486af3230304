/**
  A copy the server can no longer answer: a run in which the late hand-over of an old connection
  brings a request that wants a reply, is not run, and whose reply is not the one kept.
 */
module ProtocolStale {
  import opened Wrappers
  import opened ReqIds
  import opened Wire
  import opened ClientState
  import opened Protocol
  import opened ProtocolRuns
  import opened ProtocolStories

  predicate Calls(one: Frame, two: Frame, r: Result) {
    && one.place == 1 && !one.noReply && Size(one) <= MAX_UNACKED_BYTES
    && two.place == 2 && !two.noReply && Size(two) <= MAX_UNACKED_BYTES
    && |r.payload| < ID_SPACE
  }

  const CALLED := ONE_SESSION.(calls := {1})
  const GAVE_UP := CALLED.(abandoned := {1})

  /** The first connection, with the call written on it and broken. */
  function FirstCut(one: Frame): Conn {
    FIRST.(accept := Greeted([], true), up := [one], sent := [one], cut := true)
  }

  /** The second, with the call written on it again. */
  function SecondSent(one: Frame): Conn {
    Conn(true, 0, Greeted([], false), [one], [], false, [one])
  }

  const THIRD := Conn(true, 1, Greeted([], false), [], [], false, [])

  function Holding(f: Frame, c: Client): Client {
    c.(minted := f.place, unacked := [f], unackedBytes := Size(f))
  }

  function Broken(one: Frame): State {
    State(Holding(one, CONNECTED).(conn := None), Reconnecting(1), NewSession, [FirstCut(one)], CALLED)
  }

  function Again(one: Frame): State {
    State(Holding(one, CONNECTED).(conn := Some(1)), Flushing(1, 1), NewSession, [FirstCut(one), SecondSent(one)],
          CALLED)
  }

  function GivenUp(one: Frame): State {
    State(CONNECTED.(conn := None, minted := 1, lastReply := 1), Idle, NewSession,
          [FirstCut(one), SecondSent(one).(cut := true)], GAVE_UP)
  }

  function Recovered(one: Frame): State {
    GivenUp(one).(c := CONNECTED.(conn := Some(2), minted := 1, lastReply := 1),
                  conns := [FirstCut(one), SecondSent(one).(cut := true), THIRD])
  }

  function Asked(one: Frame, two: Frame): State {
    State(Holding(two, Recovered(one).c), Waiting(2, 0), NewSession,
          [FirstCut(one), SecondSent(one).(cut := true), THIRD.(up := [two], sent := [two])],
          GAVE_UP.(calls := {1, 2}))
  }

  function Ready(one: Frame, two: Frame): State {
    Asked(one, two).(sess := NewSession.(thread := Serving(2)),
                     conns := [Shut(FirstCut(one)), SecondSent(one).(cut := true),
                               THIRD.(accept := Handed, up := [two], sent := [two])])
  }

  /** The session once it has run the second call. */
  function Kept(r: Result): Session {
    NewSession.(lastReq := 2, lastReplyId := 2, lastReply := Reply(2, r), thread := Serving(2))
  }

  function Served(one: Frame, two: Frame, r: Result): State {
    Asked(one, two).(sess := Kept(r),
                     conns := [Shut(FirstCut(one)), SecondSent(one).(cut := true),
                               THIRD.(accept := Handed, sent := [two], down := [Response(Reply(2, r))])],
                     h := GAVE_UP.(calls := {1, 2}, executed := [Exec(2, r, 1)]))
  }

  /** The second connection, handed over late, is the one being served. */
  function Stale(one: Frame, two: Frame, r: Result): State {
    Served(one, two, r).(sess := Kept(r).(thread := Serving(1)),
                         conns := [Shut(FirstCut(one)), SecondSent(one).(cut := true, accept := Handed),
                                   Shut(Served(one, two, r).conns[2])])
  }

  lemma OneHeld(f: Frame)
    ensures TotalSize([]) == 0 && TotalSize([f]) == Size(f)
  {
    TotalSizeAppend([], f);
    assert [] + [f] == [f];
  }

  lemma FirstBreaks(before: seq<Step>, one: Frame) returns (steps: seq<Step>)
    requires Reaches(before, STARTED)
    requires one.place == 1 && !one.noReply && Size(one) <= MAX_UNACKED_BYTES
    ensures Reaches(steps, Broken(one))
  {
    hide Reaches;
    QueueOfOne(one);
    var s1 := STARTED.(c := Holding(one, CONNECTED).(queued := [one]), mode := Flushing(1, 0), h := CALLED);
    var s2 := s1.(c := Holding(one, CONNECTED), mode := Waiting(1, 0), conns := [FirstCut(one).(cut := false)]);
    steps := Next(before, STARTED, BeginCall(one), s1);
    assert Apply(s1, FlushCall(true, 1)).conns == s2.conns;
    steps := Next(steps, s1, FlushCall(true, 1), s2);
    assert Apply(s2, ReceiveFails).conns == Broken(one).conns;
    steps := Next(steps, s2, ReceiveFails, Broken(one));
  }

  lemma IsSentAgain(before: seq<Step>, one: Frame) returns (steps: seq<Step>)
    requires Reaches(before, Broken(one))
    requires one.place == 1 && !one.noReply
    ensures Reaches(steps, Again(one))
  {
    hide Reaches;
    var s := Broken(one);
    steps := Returns(before, s);
    OneHeld(one);
    QueueOfOne(one);
    QueueOfOne(Hello(true, 0));
    assert Attach(s.c, 1, true, 0) == Again(one).c;
    assert Apply(Back(s), HandshakeDone(true, 0)).conns[1] == SecondSent(one);
    assert Apply(Back(s), HandshakeDone(true, 0)).conns == Again(one).conns;
    steps := Next(steps, Back(s), HandshakeDone(true, 0), Again(one));
  }

  lemma ClientGivesUp(before: seq<Step>, one: Frame) returns (steps: seq<Step>)
    requires Reaches(before, Again(one))
    requires one.place == 1 && !one.noReply
    ensures Reaches(steps, GivenUp(one))
  {
    hide Reaches;
    OneHeld(one);
    QueueOfOne(one);
    var s1 := Again(one).(mode := Waiting(1, 1));
    assert Apply(Again(one), FlushCall(true, 0)).conns[1] == SecondSent(one);
    assert Apply(Again(one), FlushCall(true, 0)).conns == s1.conns;
    steps := Next(before, Again(one), FlushCall(true, 0), s1);
    assert Apply(s1, ReceiveFails).conns == GivenUp(one).conns;
    steps := Next(steps, s1, ReceiveFails, GivenUp(one));
  }

  lemma Recovers(before: seq<Step>, one: Frame) returns (steps: seq<Step>)
    requires Reaches(before, GivenUp(one))
    ensures Reaches(steps, Recovered(one))
  {
    hide Reaches;
    var s := GivenUp(one);
    steps := Returns(before, s);
    QueueOfOne(Hello(true, 0));
    assert Attach(s.c, 2, true, 0) == Recovered(one).c;
    assert Apply(Back(s), HandshakeDone(true, 0)).conns[2] == THIRD;
    assert Apply(Back(s), HandshakeDone(true, 0)).conns == Recovered(one).conns;
    steps := Next(steps, Back(s), HandshakeDone(true, 0), Recovered(one));
  }

  lemma ThirdCalls(before: seq<Step>, one: Frame, two: Frame) returns (steps: seq<Step>)
    requires Reaches(before, Recovered(one))
    requires two.place == 2 && !two.noReply && Size(two) <= MAX_UNACKED_BYTES
    ensures Reaches(steps, Asked(one, two))
  {
    hide Reaches;
    QueueOfOne(two);
    var s1 := Recovered(one).(c := Asked(one, two).c.(queued := [two]), mode := Flushing(2, 0),
                              h := GAVE_UP.(calls := {1, 2}));
    steps := Next(before, Recovered(one), BeginCall(two), s1);
    assert Apply(s1, FlushCall(true, 1)).conns == Asked(one, two).conns;
    steps := Next(steps, s1, FlushCall(true, 1), Asked(one, two));
  }

  lemma ThirdIsTaken(before: seq<Step>, one: Frame, two: Frame) returns (steps: seq<Step>)
    requires Reaches(before, Asked(one, two))
    ensures Reaches(steps, Ready(one, two))
  {
    hide Reaches;
    var s := Asked(one, two);
    var s1 := s.(sess := NewSession.(pending := Some(0), thread := Looking),
                 conns := s.conns[0 := FirstCut(one).(accept := Handed)]);
    var s2 := Ready(one, two).(sess := NewSession.(pending := Some(2), thread := Looking));
    assert Apply(s, HandOver(0)).conns == s1.conns;
    steps := Next(before, s, HandOver(0), s1);
    assert Apply(s1, HandOver(2)).conns == s2.conns;
    steps := Next(steps, s1, HandOver(2), s2);
    steps := Next(steps, s2, Take, Ready(one, two));
  }

  lemma ThirdIsServed(before: seq<Step>, one: Frame, two: Frame, r: Result) returns (steps: seq<Step>)
    requires Reaches(before, Ready(one, two))
    requires Calls(one, two, r)
    ensures Reaches(steps, Served(one, two, r))
  {
    hide Reaches;
    QueueOfOne(two);
    QueueOfOne(Response(Reply(2, r)));
    var s := Ready(one, two);
    var s1 := s.(sess := NewSession.(thread := Running(2, two, r)), h := Served(one, two, r).h,
                 conns := s.conns[2 := THIRD.(accept := Handed, sent := [two])]);
    var s2 := s1.(sess := Kept(r).(thread := Sending(2, Reply(2, r))));
    assert Apply(s, Read(r)).conns[2] == s1.conns[2];
    assert Apply(s, Read(r)).conns == s1.conns;
    steps := Next(before, s, Read(r), s1);
    steps := Next(steps, s1, Complete, s2);
    assert Apply(s2, Send).conns == Served(one, two, r).conns;
    steps := Next(steps, s2, Send, Served(one, two, r));
  }

  lemma SecondIsLate(before: seq<Step>, one: Frame, two: Frame, r: Result) returns (steps: seq<Step>)
    requires Reaches(before, Served(one, two, r))
    ensures Reaches(steps, Stale(one, two, r))
  {
    hide Reaches;
    var s, t := Served(one, two, r), Stale(one, two, r);
    var s1 := s.(sess := Kept(r).(pending := Some(1)), conns := s.conns[1 := t.conns[1]]);
    var s2 := t.(sess := Kept(r).(pending := Some(1), thread := Looking));
    assert Apply(s, HandOver(1)).conns == s1.conns;
    steps := Next(before, s, HandOver(1), s1);
    assert Apply(s1, Break).conns == s2.conns;
    steps := Next(steps, s1, Break, s2);
    steps := Next(steps, s2, Take, t);
  }

  lemma ClientRecovers(one: Frame) returns (steps: seq<Step>)
    requires one.place == 1 && !one.noReply && Size(one) <= MAX_UNACKED_BYTES
    ensures Reaches(steps, Recovered(one))
  {
    hide Reaches;
    steps := Connects();
    steps := FirstBreaks(steps, one);
    steps := IsSentAgain(steps, one);
    steps := ClientGivesUp(steps, one);
    steps := Recovers(steps, one);
  }

  /**
    A copy whose reply is gone can be read, though only on a connection the client has left: for
    any two calls this run ends with the server reading the first again, behind the second, whose
    reply is the one it keeps.
   */
  lemma StaleCopyIsRead(one: Frame, two: Frame, r: Result) returns (states: seq<State>, steps: seq<Step>)
    requires Calls(one, two, r)
    ensures IsRun(states, steps)
    ensures var last := states[|steps|];
            && Enabled(last, Read(r)) && last.sess.thread == Serving(1) && last.c.conn == Some(2)
            && last.conns[1].up == [one] && AtOrBefore(WireId(one.place), WireId(last.sess.lastReq))
            && last.sess.lastReplyId == 2 && Apply(last, Read(r)).conns[1].down == []
  {
    hide Reaches;
    steps := ClientRecovers(one);
    steps := ThirdCalls(steps, one, two);
    steps := ThirdIsTaken(steps, one, two);
    steps := ThirdIsServed(steps, one, two, r);
    steps := SecondIsLate(steps, one, two, r);
    states := RunTo(steps, Stale(one, two, r));
  }
}
