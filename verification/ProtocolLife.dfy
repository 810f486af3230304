/** What becomes of a call, step by step, over every run: it is written, read, run, answered and returned. */
module ProtocolLife {
  import opened Wrappers
  import opened ReqIds
  import opened Wire
  import opened ClientState
  import opened Protocol
  import opened ProtocolInvariant
  import opened ServingSteps
  import opened HandshakeSteps
  import opened ProtocolRuns

  /**
    A frame the server reads is dispatched if it was minted after everything that has run, and
    otherwise only answered, if it wants a reply and the reply kept is its own.
   */
  lemma ReadDispatches(states: seq<State>, steps: seq<Step>, n: nat, r: Result)
    requires IsRun(states, steps) && n < |steps| && steps[n] == Read(r)
    ensures var s, s' := states[n], states[n + 1];
            && s.sess.thread.Serving? && s.sess.thread.k < |s.conns| && s.conns[s.sess.thread.k].up != []
            && |s'.conns| == |s.conns| && s'.c == s.c && s'.mode == s.mode
            && var k := s.sess.thread.k; var f := s.conns[k].up[0];
               && s'.conns[k].up == s.conns[k].up[1..]
               && if f.place > s.sess.lastReq then
                    && s'.h.executed == s.h.executed + [Exec(f.place, r, 1)]
                    && s'.sess == s.sess.(thread := Running(k, f, r)) && s'.conns[k].down == s.conns[k].down
                  else
                    && s'.h.executed == s.h.executed && s'.sess == s.sess
                    && s'.conns[k].down == s.conns[k].down
                         + if !f.noReply && f.place == s.sess.lastReplyId && !s.conns[k].cut
                           then [Response(s.sess.lastReply)] else []
  {
    RunInv(states, steps, n);
    assert Moves(states[n], steps[n], states[n + 1]);
    ReadIds(states[n]);
    hide Inv, AtOrBefore, WireId;
  }

  /** A request that has run is the last one completed; if it wants a reply, its own is kept and about to be sent. */
  lemma CompletionIsKept(states: seq<State>, steps: seq<Step>, n: nat)
    requires IsRun(states, steps) && n < |steps| && steps[n] == Complete
    ensures var s, s' := states[n], states[n + 1];
            && s.sess.thread.Running? && s'.conns == s.conns && s'.c == s.c && s'.h == s.h
            && var f, r, k := s.sess.thread.frame, s.sess.thread.result, s.sess.thread.k;
               && s'.sess.lastReq == f.place
               && if f.noReply then
                    s'.sess.thread == Serving(k) && s'.sess.lastReply == s.sess.lastReply
                    && s'.sess.lastReplyId == s.sess.lastReplyId
                  else s'.sess.thread == Sending(k, Reply(f.place, r)) && s'.sess.lastReply == Reply(f.place, r)
                       && s'.sess.lastReplyId == f.place
  {
    assert Moves(states[n], steps[n], states[n + 1]);
  }

  /** The reply goes to the connection the request was read from, behind everything already on it. */
  lemma ReplyIsWritten(states: seq<State>, steps: seq<Step>, n: nat)
    requires IsRun(states, steps) && n < |steps| && steps[n] == Send
    ensures var s, s' := states[n], states[n + 1];
            && s.sess.thread.Sending? && s.sess.thread.k < |s.conns| == |s'.conns|
            && s'.sess == s.sess.(thread := Serving(s.sess.thread.k))
            && var k := s.sess.thread.k;
               s'.conns[k].down == s.conns[k].down + if s.conns[k].cut then [] else [Response(s.sess.thread.reply)]
  {
    assert Moves(states[n], steps[n], states[n + 1]);
  }

  /** A waiting client that reads a frame has its call's reply, and the call returns what its execution recorded. */
  lemma ReceiveReturns(states: seq<State>, steps: seq<Step>, n: nat)
    requires IsRun(states, steps) && n < |steps| && steps[n] == Receive
    ensures var s, s' := states[n], states[n + 1];
            && s.mode.Waiting? && s'.mode == Idle && s'.c.lastReply == s.mode.call && s'.h.abandoned == s.h.abandoned
            && s'.c.conn == s.c.conn && |s'.h.received| == |s.h.received| + 1
            && var reply := s'.h.received[|s.h.received|];
               s'.h.received == s.h.received + [reply] && reply.place == s.mode.call
               && Exec(reply.place, reply.result, 1) in s.h.executed
  {
    RunInv(states, steps, n);
    assert Moves(states[n], steps[n], states[n + 1]);
    ReplyIsForCall(states[n]);
    hide Inv, WireId, AckedCount, TotalSize;
  }

  /** What is queued goes onto the connection in order, behind what is there, and the queue is empty. */
  lemma FlushWrites(states: seq<State>, steps: seq<Step>, n: nat)
    requires IsRun(states, steps) && n < |steps| && (steps[n].FlushCall? || steps[n].FlushIdle?) && steps[n].ok
    ensures var s, s' := states[n], states[n + 1];
            && s.c.conn.Some? && s.c.conn.value < |s.conns| == |s'.conns|
            && s'.c == s.c.(queued := []) && s'.sess == s.sess
            && var k := s.c.conn.value;
               && s'.conns[k].up == s.conns[k].up + (if s.conns[k].cut then [] else s.c.queued)
               && s'.conns[k].sent == s.conns[k].sent + s.c.queued
               && s'.mode == if s.mode.Idle? then Idle else Waiting(s.mode.call, s.mode.attempt)
  {
    assert Moves(states[n], steps[n], states[n + 1]);
  }

  /** A request is minted next, queued behind the others, and held as long as everything held can be sent again. */
  lemma RequestIsQueued(states: seq<State>, steps: seq<Step>, n: nat)
    requires IsRun(states, steps) && n < |steps| && (steps[n].BeginCall? || steps[n].QueueOneWay?)
    ensures var s, s', f := states[n], states[n + 1], steps[n].frame;
            && f.place == s.c.minted + 1 == s'.c.minted && s'.c.queued == s.c.queued + [f]
            && s'.conns == s.conns && s'.sess == s.sess && s'.c.conn == s.c.conn
            && (s'.c.replayPossible ==> s'.c.unacked == s.c.unacked + [f])
            && (f.noReply ==> s'.mode == Idle && s'.h == s.h)
            && (!f.noReply ==> s'.mode == Flushing(f.place, 0) && s'.h == s.h.(calls := s.h.calls + {f.place}))
  {
    assert Moves(states[n], steps[n], states[n + 1]);
  }

  // --- a connection that breaks -----------------------------------------------------

  /** The steps in which the client finds its connection broken under a call. */
  predicate Breaks(step: Step) {
    step.ReceiveFails? || (step.FlushCall? && !step.ok)
  }

  /** The first break of a call is a reason to come back, and the second ends it. */
  lemma BrokenTwiceIsGivenUp(states: seq<State>, steps: seq<Step>, n: nat)
    requires IsRun(states, steps) && n < |steps| && Breaks(steps[n])
    ensures var s, s' := states[n], states[n + 1];
            && (s.mode.Waiting? || s.mode.Flushing?) && s.c.conn.Some? && s.c.conn.value < |s'.conns| && s'.c.conn.None?
            && s'.conns[s.c.conn.value].cut
            && if s.mode.attempt == 0 then
                 s'.mode == Reconnecting(s.mode.call) && s'.h == s.h && s'.c.unacked == s.c.unacked
               else
                 && s'.mode == Idle && s'.h == s.h.(abandoned := s.h.abandoned + {s.mode.call})
                 && s'.c.lastReply == s.mode.call && !Holds(s'.c.unacked, s.mode.call)
  {
    RunInv(states, steps, n);
    assert Moves(states[n], steps[n], states[n + 1]);
    if states[n].mode.attempt != 0 {
      GivenUpIsNotHeld(states[n]);
    }
    hide Inv, TotalSize;
  }

  /** A call given up is no longer held: if it was, it was the last frame. */
  lemma GivenUpIsNotHeld(s: State)
    requires Inv(s) && ForCall(s.mode) != 0 && NearBack(s)
    ensures !Holds(WithoutLast(s.c.unacked, ForCall(s.mode)), ForCall(s.mode))
  {
    var u, call := s.c.unacked, ForCall(s.mode);
    if u != [] {
      OrderInWindow(u[|u| - 1].place, call);
    }
    hide PipeOk, ShakeOk, CoverOk, SessionOk, ExecOk, ConnsOk, WireId;
  }

  /** A call that cannot reach the server again is given up: out of time, or because it could not be sent again. */
  lemma OutOfReachIsGivenUp(states: seq<State>, steps: seq<Step>, n: nat)
    requires IsRun(states, steps) && n < |steps| && steps[n].GiveUp?
    ensures var s, s' := states[n], states[n + 1];
            && s.mode.Reconnecting? && (steps[n].deadline || !s.c.replayPossible)
            && s'.mode == Idle && s'.h == s.h.(abandoned := s.h.abandoned + {s.mode.call}) && s'.conns == s.conns
            && s'.c.lastReply == s.mode.call && !Holds(s'.c.unacked, s.mode.call)
            && (s.c.replayPossible ==> s'.c.connectFailed)
  {
    RunInv(states, steps, n);
    assert Moves(states[n], steps[n], states[n + 1]);
    GivenUpIsNotHeld(states[n]);
    hide Inv, TotalSize;
  }

  // --- coming back ---------------------------------------------------------------------

  /** A handshake names the last reply the client had, and whether it had a session. */
  lemma HandshakeNamesLastReply(states: seq<State>, steps: seq<Step>, n: nat)
    requires IsRun(states, steps) && n < |steps| && steps[n] == Open
    ensures var s, s' := states[n], states[n + 1];
            && s'.conns == s.conns + [Conn(s.c.hadSession, s.c.lastReply, Unread, [], [], false, [])]
            && s'.mode == Shaking(|s.conns|, ForCall(s.mode)) && s'.sess == s.sess && s'.h == s.h
  {
    assert Moves(states[n], steps[n], states[n + 1]);
  }

  /** The session's advice is what it has completed; the reply the client missed goes with it, if there is one. */
  lemma AdviceIsTrue(states: seq<State>, steps: seq<Step>, n: nat, k: nat)
    requires IsRun(states, steps) && n < |steps| && steps[n] == Snapshot(k)
    ensures var s, s' := states[n], states[n + 1];
            && k < |s.conns| == |s'.conns| && s.conns[k].accept.Found? && s'.sess == s.sess
            && var missed := s.conns[k].accept.resumed && s.sess.lastReplyId > s.conns[k].helloLast;
               s'.conns[k].accept == Snapped(s.conns[k].accept.resumed, s.sess.lastReq,
                                             if missed then [s.sess.lastReply] else [])
  {
    RunInv(states, steps, n);
    assert Moves(states[n], steps[n], states[n + 1]);
    OrderInWindow(states[n].sess.lastReplyId, states[n].conns[k].helloLast);
    assert HelloOk(states[n].conns[k], k, states[n].c.minted);
    hide Inv, AtOrBefore, WireId;
  }

  /** The handshake is answered with that advice, and then the reply that was missed is written. */
  lemma AdviceIsWritten(states: seq<State>, steps: seq<Step>, n: nat, k: nat)
    requires IsRun(states, steps) && n < |steps| && (steps[n] == Greet(k, true) || steps[n] == SendUnanswered(k, true))
    ensures var s, s' := states[n], states[n + 1];
            && k < |s.conns| == |s'.conns| && s'.sess == s.sess
            && var c, c' := s.conns[k], s'.conns[k];
               if steps[n].Greet? then
                 && c.accept.Snapped? && c'.accept == Greeted(c.accept.unanswered, !c.accept.resumed)
                 && c'.down == c.down + if c.cut then [] else [Hello(c.accept.resumed, c.accept.lastReq)]
               else
                 && c.accept.Greeted? && c.accept.unanswered != []
                 && c'.accept == Greeted(c.accept.unanswered[1..], c.accept.isNew)
                 && c'.down == c.down + if c.cut then [] else [Response(c.accept.unanswered[0])]
  {
    assert Moves(states[n], steps[n], states[n + 1]);
  }

  /** A handshake that cannot be answered closes the connection; a session nobody was told of goes with it. */
  lemma UnansweredIsClosed(states: seq<State>, steps: seq<Step>, n: nat, k: nat)
    requires IsRun(states, steps) && n < |steps|
    requires steps[n] == Greet(k, false) || steps[n] == SendUnanswered(k, false)
    ensures var s, s' := states[n], states[n + 1];
            && k < |s.conns| == |s'.conns| && s'.conns[k].accept == Closed && s'.conns[k].cut && s'.conns[k].up == []
            && if steps[n].Greet? && s.conns[k].accept.Snapped? && !s.conns[k].accept.resumed
               then s'.sess.finished && !s'.sess.listed else s'.sess == s.sess
  {
    assert Moves(states[n], steps[n], states[n + 1]);
  }

  /** A client taken back forgets exactly the frames the session has completed, and sends the rest again in order. */
  lemma ResumeResends(states: seq<State>, steps: seq<Step>, n: nat, k: nat)
    requires IsRun(states, steps) && n < |steps| && steps[n].HandshakeDone? && steps[n].ok
    requires states[n].mode.Shaking? && states[n].mode.k == k < |states[n].conns| && states[n].conns[k].down != []
    requires states[n].conns[k].down[0].Hello? && states[n].conns[k].down[0].resumed
    ensures var s, s', last := states[n], states[n + 1], states[n].conns[k].down[0].lastReq;
            && |s'.conns| == |s.conns| && s'.c.conn == Some(k) && s'.c.hadSession && !s'.c.sessionGone
            && s'.mode == (if s.mode.forCall == 0 then Idle else Flushing(s.mode.forCall, 1))
            && IsSuffix(s'.c.unacked, s.c.unacked) && s'.c.queued == []
            && (forall f :: f in s'.c.unacked <==> f in s.c.unacked && f.place > last)
            && s'.conns[k].sent == s.conns[k].sent + s'.c.unacked
            && s'.conns[k].up == s.conns[k].up + (if s.conns[k].cut then [] else s'.c.unacked)
            && s'.conns[k].down == s.conns[k].down[1..]
  {
    RunInv(states, steps, n);
    assert Moves(states[n], steps[n], states[n + 1]);
    var s, last := states[n], states[n].conns[k].down[0].lastReq;
    ResumeFacts(s, k);
    KeptAreLater(s.c.unacked, AckedCount(s.c.unacked, last), last);
    AnsweredResumed(s, k, s.mode.forCall, last, steps[n].count);
    hide Inv, AckedCount, Answered, Forgotten;
  }

  lemma AnsweredResumed(s: State, k: nat, call: nat, last: nat, count: nat)
    requires k < |s.conns| && s.conns[k].down != []
    ensures var s' := Answered(s, k, call, true, last, true, count);
            && |s'.conns| == |s.conns| && s'.c.conn == Some(k) && s'.c.hadSession && s'.c.sessionGone == s.c.sessionGone
            && s'.mode == (if call == 0 then Idle else Flushing(call, 1)) && s'.c.queued == []
            && s'.c.unacked == s.c.unacked[AckedCount(s.c.unacked, last)..]
            && s'.conns[k].sent == s.conns[k].sent + s'.c.unacked
            && s'.conns[k].up == s.conns[k].up + (if s.conns[k].cut then [] else s'.c.unacked)
            && s'.conns[k].down == s.conns[k].down[1..]
  {
    hide AckedCount, TotalSize;
  }

  lemma KeptAreLater(u: seq<Frame>, m: nat, last: nat)
    requires Forgotten(u, m, last)
    ensures m <= |u| && IsSuffix(u[m..], u) && forall f :: f in u[m..] <==> f in u && f.place > last
  {
    forall f | f in u && f.place > last ensures f in u[m..] {
      var i :| 0 <= i < |u| && u[i] == f;
      assert u[m..][i - m] == f;
    }
  }

  // --- the session and its connections --------------------------------------------------

  /** A connection handed over is the one served next, in place of any that was waiting, unless the session is over. */
  lemma HandedOverIsNext(states: seq<State>, steps: seq<Step>, n: nat, k: nat)
    requires IsRun(states, steps) && n < |steps| && steps[n] == HandOver(k)
    ensures var s, s' := states[n], states[n + 1];
            && k < |s.conns| == |s'.conns| && s.conns[k].accept.Greeted?
            && if !s.conns[k].accept.isNew && s.sess.finished then s'.conns[k].accept == Closed && s'.sess == s.sess
               else
                 && s'.conns[k].accept == Handed && s'.sess.pending == Some(k)
                 && s'.sess.thread == (if s.conns[k].accept.isNew then Looking else s.sess.thread)
                 && (s.sess.pending != Some(k) ==>
                       s'.conns[k].up == s.conns[k].up && s'.conns[k].down == s.conns[k].down)
                 && (s.sess.pending.Some? && s.sess.pending.value != k ==>
                       s.sess.pending.value < |s'.conns| && s'.conns[s.sess.pending.value].accept == Closed)
  {
    assert Moves(states[n], steps[n], states[n + 1]);
  }

  /** The serving thread takes up the connection waiting, leaves one that broke, and ends when the grace period does. */
  lemma ServingThread(states: seq<State>, steps: seq<Step>, n: nat)
    requires IsRun(states, steps) && n < |steps|
    ensures var s, s', t := states[n].sess, states[n + 1].sess, states[n].sess.thread;
            && (steps[n] == Take ==> s.pending.Some? && s' == s.(thread := Serving(s.pending.value), pending := None))
            && (steps[n] == Break ==>
                  && t.Serving? && s' == s.(thread := Looking) && t.k < |states[n + 1].conns|
                  && states[n + 1].conns[t.k].accept == Closed && states[n + 1].conns[t.k].cut)
            && (steps[n] == Expire ==> s.pending.None? && s' == s.(finished := true, thread := Ended))
            && (steps[n] == Erase ==> t == Ended && s' == s.(listed := false))
  {
    assert Moves(states[n], steps[n], states[n + 1]);
  }
}
