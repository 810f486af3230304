/**
  What is lost when frames that would have to be sent again have been thrown away: a run in which
  a later request runs and an earlier one, which the client never gave up, does not.
 */
module ProtocolGap {
  import opened Wrappers
  import opened ReqIds
  import opened Wire
  import opened ClientState
  import opened Protocol
  import opened ProtocolRuns
  import opened ProtocolStories

  predicate TooBig(big: Frame) {
    big.place == 1 && big.noReply && MAX_UNACKED_BYTES < Size(big) && |big.payload| < ID_SPACE
  }

  predicate Ordinary(next: Frame, r: Result) {
    next.place == 2 && !next.noReply && |next.payload| < ID_SPACE && |r.payload| < ID_SPACE
  }

  const OVER := CONNECTED.(minted := 1, replayPossible := false)
  const HANDED := NewSession.(pending := Some(0), thread := Looking)
  const BROKEN := FIRST.(accept := Handed, cut := true)
  const SECOND := Conn(true, 0, Handed, [], [], false, [])
  const GAPPED := ONE_SESSION.(gapped := true)

  /** The call that was too big was lost with the connection, before it was written. */
  const LOST := State(OVER.(conn := None), Idle, HANDED, [BROKEN], ONE_SESSION)

  /** The client has come back to the session, which knows of no request. */
  const RESUMED :=
    State(OVER.(conn := Some(1)), Idle, HANDED, [BROKEN, SECOND.(accept := Greeted([], false))], GAPPED)

  /** The session serves the new connection. */
  const READY :=
    State(OVER.(conn := Some(1)), Idle, NewSession.(thread := Serving(1)), [BROKEN.(accept := Closed), SECOND], GAPPED)

  lemma Overflows(before: seq<Step>, big: Frame) returns (steps: seq<Step>)
    requires Reaches(before, STARTED)
    requires TooBig(big)
    ensures Reaches(steps, LOST)
  {
    hide Reaches;
    var s1 := STARTED.(sess := HANDED, conns := [FIRST.(accept := Handed)]);
    var s2 := s1.(c := OVER.(queued := [big]));
    assert Apply(STARTED, HandOver(0)).conns == s1.conns;
    steps := Next(before, STARTED, HandOver(0), s1);
    steps := Next(steps, s1, QueueOneWay(big), s2);
    QueueOfOne(big);
    assert Apply(s2, FlushIdle(false, 0)).conns[0] == BROKEN;
    assert Apply(s2, FlushIdle(false, 0)).conns == LOST.conns;
    steps := Next(steps, s2, FlushIdle(false, 0), LOST);
  }

  lemma IsResumed(before: seq<Step>) returns (steps: seq<Step>)
    requires Reaches(before, LOST)
    ensures Reaches(steps, RESUMED)
  {
    hide Reaches;
    steps := Returns(before, LOST);
    QueueOfOne(Hello(true, 0));
    assert Apply(Back(LOST), HandshakeDone(true, 0)).conns[1] == RESUMED.conns[1];
    assert Apply(Back(LOST), HandshakeDone(true, 0)).conns == RESUMED.conns;
    steps := Next(steps, Back(LOST), HandshakeDone(true, 0), RESUMED);
  }

  lemma IsTaken(before: seq<Step>) returns (steps: seq<Step>)
    requires Reaches(before, RESUMED)
    ensures Reaches(steps, READY)
  {
    hide Reaches;
    var s1 := READY.(sess := HANDED.(pending := Some(1)));
    assert Apply(RESUMED, HandOver(1)).conns == READY.conns;
    steps := Next(before, RESUMED, HandOver(1), s1);
    steps := Next(steps, s1, Take, READY);
  }

  /** The second request is being run; the first never was. */
  function Skipped(next: Frame, r: Result): State {
    READY.(c := READY.c.(minted := 2), mode := Waiting(2, 0), sess := NewSession.(thread := Running(1, next, r)),
           conns := [BROKEN.(accept := Closed), SECOND.(sent := [next])],
           h := GAPPED.(calls := {2}, executed := [Exec(2, r, 1)]))
  }

  lemma CallsAgain(before: seq<Step>, next: Frame, r: Result) returns (steps: seq<Step>)
    requires Reaches(before, READY)
    requires Ordinary(next, r)
    ensures Reaches(steps, Skipped(next, r))
  {
    hide Reaches;
    var s1 := READY.(c := READY.c.(minted := 2, queued := [next]), mode := Flushing(2, 0),
                     h := GAPPED.(calls := {2}));
    var s2 := s1.(c := READY.c.(minted := 2), mode := Waiting(2, 0),
                  conns := [BROKEN.(accept := Closed), SECOND.(up := [next], sent := [next])]);
    QueueOfOne(next);
    steps := Next(before, READY, BeginCall(next), s1);
    assert Apply(s1, FlushCall(true, 1)).conns == s2.conns;
    steps := Next(steps, s1, FlushCall(true, 1), s2);
    assert Apply(s2, Read(r)).conns[1] == SECOND.(sent := [next]);
    assert Apply(s2, Read(r)).conns == Skipped(next, r).conns;
    steps := Next(steps, s2, Read(r), Skipped(next, r));
  }

  /**
    The hypothesis of `NothingSkipped` is needed: whatever the calls are, once one was too big to
    hold this run dispatches the second request and never the first, which was not given up.
   */
  lemma SkippedAfterOverflow(big: Frame, next: Frame, r: Result) returns (states: seq<State>, steps: seq<Step>)
    requires TooBig(big) && Ordinary(next, r)
    ensures IsRun(states, steps)
    ensures var last := states[|steps|];
            && last.h.gapped && !last.c.replayPossible
            && last.h.executed == [Exec(2, r, 1)] && 1 !in last.h.abandoned
  {
    hide Reaches;
    steps := Connects();
    steps := Overflows(steps, big);
    steps := IsResumed(steps);
    steps := IsTaken(steps);
    steps := CallsAgain(steps, next, r);
    states := RunTo(steps, Skipped(next, r));
  }
}
