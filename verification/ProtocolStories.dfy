/** Particular runs of the session protocol, put together from the stretches they have in common. */
module ProtocolStories {
  import opened Wrappers
  import opened ReqIds
  import opened Wire
  import opened ClientState
  import opened Protocol
  import opened ProtocolInvariant
  import opened ProtocolRuns

  /** The step may be taken in a run. */
  ghost predicate Can(s: State, step: Step) {
    Enabled(s, step) && Window(s, step) && Short(step)
  }

  datatype Outcome = Reached(s: State) | Stuck

  /** The state the steps lead to from the beginning, if each of them can be taken. */
  ghost function After(steps: seq<Step>): Outcome {
    if steps == [] then Reached(Init)
    else
      var before, last := After(steps[..|steps| - 1]), steps[|steps| - 1];
      if before.Reached? && Can(before.s, last) then Reached(Apply(before.s, last)) else Stuck
  }

  /** The steps can be taken, and lead from the beginning to `s`. */
  ghost predicate Reaches(steps: seq<Step>, s: State) {
    After(steps) == Reached(s)
  }

  lemma Begins()
    ensures Reaches([], Init)
  {
  }

  lemma Next(steps: seq<Step>, s: State, step: Step, t: State) returns (more: seq<Step>)
    requires Reaches(steps, s) && Can(s, step) && t == Apply(s, step)
    ensures Reaches(more, t)
  {
    hide Enabled, Window, Short, Apply;
    more := steps + [step];
    assert more[..|steps|] == steps;
  }

  /** A run from the beginning that ends in `t`. */
  lemma {:induction false} RunTo(steps: seq<Step>, t: State) returns (states: seq<State>)
    requires Reaches(steps, t)
    ensures IsRun(states, steps) && states[|steps|] == t
    decreases |steps|
  {
    hide Enabled, Window, Short, Apply;
    if steps == [] {
      states := [Init];
    } else {
      var front := steps[..|steps| - 1];
      var before := RunTo(front, After(front).s);
      states := before + [t];
      forall i | 0 <= i < |steps| ensures Moves(states[i], steps[i], states[i + 1]) {
        assert i < |front| ==> Moves(before[i], front[i], before[i + 1]);
      }
    }
  }

  /** What a queue of one looks like before and after. */
  lemma QueueOfOne<T>(x: T)
    ensures [] + [x] == [x] && [x] + [] == [x] && [x][1..] == [] && [x][..0] == [] && [x][0..] == [x]
  {
  }

  // --- the first connection ----------------------------------------------------------

  const FIRST := Conn(false, 0, Unread, [], [], false, [])
  const CONNECTED := Fresh.(conn := Some(0), hadSession := true)
  const ONE_SESSION := History({}, {}, [], [], false, 1)

  /** The accept thread of the first connection has made the session. */
  const MADE := State(Fresh, Shaking(0, 0), NewSession, [FIRST.(accept := Found(false))], ONE_SESSION)

  /** A client with a session, on a connection its accept thread has answered and not yet handed over. */
  const STARTED := State(CONNECTED, Idle, NewSession, [FIRST.(accept := Greeted([], true))], ONE_SESSION)

  lemma Opens() returns (steps: seq<Step>)
    ensures Reaches(steps, MADE)
  {
    hide Reaches;
    Begins();
    var s1 := State(Fresh, Shaking(0, 0), NoSession, [FIRST], Init.h);
    assert Apply(Init, Open).conns == s1.conns;
    steps := Next([], Init, Open, s1);
    assert Apply(s1, Lookup(0, false)).conns == MADE.conns;
    steps := Next(steps, s1, Lookup(0, false), MADE);
  }

  lemma IsGreeted(before: seq<Step>) returns (steps: seq<Step>)
    requires Reaches(before, MADE)
    ensures Reaches(steps, STARTED)
  {
    hide Reaches;
    var s3 := MADE.(conns := [FIRST.(accept := Snapped(false, 0, []))]);
    var s4 := MADE.(conns := [FIRST.(accept := Greeted([], true), down := [Hello(false, 0)])]);
    assert Apply(MADE, Snapshot(0)).conns == s3.conns;
    steps := Next(before, MADE, Snapshot(0), s3);
    QueueOfOne(Hello(false, 0));
    assert Apply(s3, Greet(0, true)).conns[0] == s4.conns[0];
    assert Apply(s3, Greet(0, true)).conns == s4.conns;
    steps := Next(steps, s3, Greet(0, true), s4);
    assert Apply(s4, HandshakeDone(true, 0)).conns[0] == STARTED.conns[0];
    assert Apply(s4, HandshakeDone(true, 0)).conns == STARTED.conns;
    steps := Next(steps, s4, HandshakeDone(true, 0), STARTED);
  }

  lemma Connects() returns (steps: seq<Step>)
    ensures Reaches(steps, STARTED)
  {
    hide Reaches;
    steps := Opens();
    steps := IsGreeted(steps);
  }

  // --- coming back -------------------------------------------------------------------

  /** The client's next connection, answered by a session that has nothing to send it again. */
  function Greeting(s: State): Conn {
    Conn(true, s.c.lastReply, Greeted([], false), [], [Hello(true, s.sess.lastReq)], false, [])
  }

  function Back(s: State): State {
    s.(c := s.c.(connectFailed := false), mode := Shaking(|s.conns|, ForCall(s.mode)), conns := s.conns + [Greeting(s)])
  }

  lemma Returns(before: seq<Step>, s: State) returns (steps: seq<Step>)
    requires Reaches(before, s)
    requires Indexed(s) && CanConnect(s) && s.c.hadSession && s.sess.listed && !s.sess.finished
    requires s.sess.lastReplyId <= s.c.lastReply <= s.c.minted < WINDOW && s.sess.lastReq <= s.c.minted
    ensures Reaches(steps, Back(s))
  {
    hide Reaches;
    var k := |s.conns|;
    var c := Conn(true, s.c.lastReply, Unread, [], [], false, []);
    var s1 := s.(c := s.c.(connectFailed := false), mode := Shaking(k, ForCall(s.mode)), conns := s.conns + [c]);
    var s2 := s1.(conns := s.conns + [c.(accept := Found(true))]);
    steps := Next(before, s, Open, s1);
    assert Apply(s1, Lookup(k, false)).conns == s2.conns;
    steps := Next(steps, s1, Lookup(k, false), s2);
    steps := IsAnswered(steps, s, s2);
  }

  lemma IsAnswered(before: seq<Step>, s: State, s2: State) returns (steps: seq<Step>)
    requires Reaches(before, s2)
    requires Indexed(s) && s.sess.lastReplyId <= s.c.lastReply <= s.c.minted < WINDOW
    requires s2 == Back(s).(conns := s.conns + [Conn(true, s.c.lastReply, Found(true), [], [], false, [])])
    ensures Reaches(steps, Back(s))
  {
    hide Reaches;
    var k := |s.conns|;
    var s3 := s2.(conns := s.conns + [Conn(true, s.c.lastReply, Snapped(true, s.sess.lastReq, []), [], [], false, [])]);
    OrderInWindow(s.sess.lastReplyId, s.c.lastReply);
    assert Apply(s2, Snapshot(k)).conns == s3.conns;
    steps := Next(before, s2, Snapshot(k), s3);
    QueueOfOne(Hello(true, s.sess.lastReq));
    assert Apply(s3, Greet(k, true)).conns[k] == Greeting(s);
    assert Apply(s3, Greet(k, true)).conns == Back(s).conns;
    steps := Next(steps, s3, Greet(k, true), Back(s));
  }
}
