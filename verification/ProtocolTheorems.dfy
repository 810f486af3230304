/** What the session protocol promises, over every run. */
module ProtocolTheorems {
  import opened Wrappers
  import opened ReqIds
  import opened Wire
  import opened Framing
  import opened Replies
  import opened ClientState
  import opened Protocol
  import opened ProtocolInvariant
  import opened HandshakeSteps
  import opened ProtocolRuns

  /**
    Each request is dispatched at most once, and dispatches come in the order the client minted
    the requests, whatever was lost, late or sent again.
   */
  lemma AtMostOnceInOrder(states: seq<State>, steps: seq<Step>, n: nat)
    requires IsRun(states, steps) && n < |states|
    ensures var ex := states[n].h.executed;
            forall i, j :: 0 <= i < j < |ex| ==> ex[i].place < ex[j].place
  {
    RunInv(states, steps, n);
  }

  /** Nothing dispatched is ever undispatched: the record only grows along a run. */
  lemma {:induction false} ExecutionsGrow(states: seq<State>, steps: seq<Step>, m: nat, n: nat)
    requires IsTrace(states, steps) && m <= n < |states|
    ensures states[m].h.executed <= states[n].h.executed
  {
    if m < n {
      ExecutionsGrow(states, steps, m, n - 1);
      assert Goes(states[n - 1], steps[n - 1], states[n]);
      ExecutionsGrowByOne(states[n - 1], steps[n - 1]);
    }
  }

  lemma ExecutionsGrowByOne(s: State, step: Step)
    requires Enabled(s, step)
    ensures s.h.executed <= Apply(s, step).h.executed
  {
  }

  /** What the client has in hand, and what it gave up, are calls: requests that want a reply. */
  ghost predicate OnlyCalls(s: State) {
    && s.h.abandoned <= s.h.calls
    && match s.mode
       case Idle => true
       case Shaking(_, call) => call != 0 ==> call in s.h.calls
       case _ => s.mode.call in s.h.calls
  }

  lemma OnlyCallsStep(s: State, step: Step)
    requires Enabled(s, step) && OnlyCalls(s)
    ensures OnlyCalls(Apply(s, step))
  {
    hide AtOrBefore, WireId, ForgetAcked, WithoutLast, QueueOne, WriteUp, WriteDown, Attach;
    if step.HandshakeDone? && s.conns[s.mode.k].down[0].Hello? {
      var d := s.conns[s.mode.k].down[0];
      OnlyCallsAnswered(s, s.mode.k, s.mode.forCall, d.resumed, d.lastReq, step.ok, step.count);
    }
    hide Answered;
  }

  lemma OnlyCallsAnswered(s: State, k: nat, call: nat, resumed: bool, lastReq: nat, ok: bool, count: nat)
    requires OnlyCalls(s) && k < |s.conns| && s.conns[k].down != [] && (call != 0 ==> call in s.h.calls)
    ensures OnlyCalls(Answered(s, k, call, resumed, lastReq, ok, count))
  {
    hide AtOrBefore, WireId, ForgetAcked, WithoutLast, WriteUp, Attach;
  }

  /** In every run, whatever the ids and lengths, only calls are given up. */
  lemma {:induction false} OnlyCallsGivenUp(states: seq<State>, steps: seq<Step>, n: nat)
    requires IsTrace(states, steps) && n < |states|
    ensures OnlyCalls(states[n])
  {
    hide Enabled, Apply;
    if n > 0 {
      OnlyCallsGivenUp(states, steps, n - 1);
      assert Goes(states[n - 1], steps[n - 1], states[n]);
      OnlyCallsStep(states[n - 1], steps[n - 1]);
    }
  }

  /**
    When a request runs, every request minted before it has run before it or is a call the client
    gave up - unless the client resumed after it had thrown away frames it would have to resend.
    A request sent without a reply is never a call, so it is never skipped.
   */
  lemma NothingSkipped(states: seq<State>, steps: seq<Step>, n: nat, j: nat, m: nat)
    requires IsRun(states, steps) && n < |states| && !states[n].h.gapped
    requires j < |states[n].h.executed| && 1 <= m < states[n].h.executed[j].place
    ensures || (m in states[n].h.abandoned && m in states[n].h.calls)
            || exists i :: 0 <= i < j && states[n].h.executed[i].place == m
  {
    RunInv(states, steps, n);
    RunIsTrace(states, steps);
    OnlyCallsGivenUp(states, steps, n);
    var ex := states[n].h.executed;
    assert ex[j].place <= LastRun(ex);
    if m !in states[n].h.abandoned {
      assert Executed(ex, m);
      var i :| 0 <= i < |ex| && ex[i].place == m;
      assert i < j;
    }
  }

  /** While replay stays possible nothing has been thrown away. */
  lemma ReplayMeansNoGap(states: seq<State>, steps: seq<Step>, n: nat)
    requires IsRun(states, steps) && n < |states| && states[n].c.replayPossible
    ensures !states[n].h.gapped
  {
    RunInv(states, steps, n);
  }

  /** The bytes on a connection are read as the very frames written to it. */
  lemma RequestsArriveWhole(states: seq<State>, steps: seq<Step>, n: nat, k: nat, tail: seq<Byte>)
    requires IsRun(states, steps) && n < |states| && k < |states[n].conns|
    ensures var up := states[n].conns[k].up;
            && Frames(Stream(up) + tail) == ArrivedAll(up) + Frames(tail)
            && forall i :: 0 <= i < |up| ==> Understood(ArrivedAll(up)[i]) == OnWire(up[i])
  {
    RunMeasured(states, steps, n);
    var up := states[n].conns[k].up;
    FramesOfStream(up, tail);
    forall i | 0 <= i < |up| ensures Understood(ArrivedAll(up)[i]) == OnWire(up[i]) {
      ArrivedIsUnderstood(up[i]);
    }
  }

  /**
    A client waiting for a reply can read no frame but the reply to its call: the first reply in
    the bytes that reach it has the call's id, and carries what its execution recorded.
   */
  lemma NoMismatchedReply(states: seq<State>, steps: seq<Step>, n: nat, rest: seq<Byte>)
    requires IsRun(states, steps) && n < |states|
    requires states[n].mode.Waiting? && states[n].c.conn.Some?
    requires states[n].c.conn.value < |states[n].conns| && states[n].conns[states[n].c.conn.value].down != []
    ensures var d := states[n].conns[states[n].c.conn.value].down[0];
            && d.Response? && d.reply.place == states[n].mode.call
            && Exec(d.reply.place, d.reply.result, 1) in states[n].h.executed
            && var b := EncodeReply(ReplyOnWire(d.reply)) + rest;
               && Whole(b) && AfterFirst(b) == rest && First(b).reqId == WireId(states[n].mode.call)
               && Result(First(b).code, First(b).payload) == d.reply.result
  {
    RunInv(states, steps, n);
    ReplyIsForCall(states[n]);
    RunMeasured(states, steps, n);
    ReplyExact(ReplyOnWire(states[n].conns[states[n].c.conn.value].down[0].reply), rest);
    hide Inv, EncodeReply, Whole, First, AfterFirst, WireId;
  }

  lemma OnePlace(ex: seq<Exec>, i: nat, j: nat)
    requires forall a, b :: 0 <= a < b < |ex| ==> ex[a].place < ex[b].place
    requires i < |ex| && j < |ex| && ex[i].place == ex[j].place
    ensures i == j
  {
  }

  /** Every result a call returned from a reply is the one its single execution recorded. */
  lemma ResultsAreRecorded(states: seq<State>, steps: seq<Step>, n: nat, i: nat)
    requires IsRun(states, steps) && n < |states| && i < |states[n].h.received|
    ensures var ex, r := states[n].h.executed, states[n].h.received[i];
            exists j :: 0 <= j < |ex| && ex[j] == Exec(r.place, r.result, 1)
                     && forall l :: 0 <= l < |ex| && ex[l].place == r.place ==> l == j
  {
    RunInv(states, steps, n);
    var ex, r := states[n].h.executed, states[n].h.received[i];
    var j :| 0 <= j < |ex| && ex[j] == Exec(r.place, r.result, 1);
    forall l | 0 <= l < |ex| && ex[l].place == r.place ensures l == j {
      OnePlace(ex, l, j);
    }
  }

  /**
    On a resume inside a call: the call is sent again exactly when the session has not completed
    it, and its reply is on the connection exactly when it is not sent again - never both, and
    never neither while the connection holds.
   */
  lemma ResumeSendsOrAnswers(states: seq<State>, steps: seq<Step>, n: nat)
    requires IsRun(states, steps) && n < |steps| && steps[n].HandshakeDone?
    requires states[n].mode.Shaking? && states[n].mode.forCall != 0
    requires states[n].mode.k < |states[n].conns| && states[n].conns[states[n].mode.k].down != []
    requires states[n].conns[states[n].mode.k].down[0].Hello? && states[n].conns[states[n].mode.k].down[0].resumed
    ensures var s, k, call := states[n], states[n].mode.k, states[n].mode.forCall;
            var c := s.conns[k];
            var resend := Attach(s.c, k, true, c.down[0].lastReq).unacked;
            var replies := Answers(c, k, s.sess.thread, c.down[1..]);
            && (Holds(resend, call) <==> c.down[0].lastReq < call)
            && (Holds(resend, call) ==> replies == 0)
            && (!Holds(resend, call) ==> replies <= 1 && (!c.cut ==> replies == 1))
  {
    RunInv(states, steps, n);
    assert Moves(states[n], steps[n], states[n + 1]);
    var s, k, call := states[n], states[n].mode.k, states[n].mode.forCall;
    ResumeFacts(s, k);
    ResentExactly(s, k, call);
    ResumeAnswers(s, k, call);
  }

  /** What is sent again is what the handshake does not count as completed. */
  lemma ResentExactly(s: State, k: nat, call: nat)
    requires Inv(s) && s.mode == Shaking(k, call) && call != 0 && s.conns[k].down != []
    requires s.conns[k].down[0].Hello? && s.conns[k].down[0].resumed
    requires var last := s.conns[k].down[0].lastReq; Forgotten(s.c.unacked, AckedCount(s.c.unacked, last), last)
    ensures var last := s.conns[k].down[0].lastReq;
            Holds(Attach(s.c, k, true, last).unacked, call) <==> last < call
  {
    hide PipeOk, CoverOk, ExecOk, ConnsOk, SessionOk, AckedCount;
    var last := s.conns[k].down[0].lastReq;
    var m := AckedCount(s.c.unacked, last);
    KeptFrames(s.c.unacked, m, last, s.c.minted, s.h.calls, call);
    var resend := s.c.unacked[m..];
    if Holds(resend, call) {
      var i :| 0 <= i < |resend| && resend[i].place == call;
      assert resend[i] == s.c.unacked[m + i];
    }
  }

  /** The reply is on the connection if the handshake counts the call as completed, and else not. */
  lemma ResumeAnswers(s: State, k: nat, call: nat)
    requires Inv(s) && s.mode == Shaking(k, call) && call != 0 && s.conns[k].down != []
    requires s.conns[k].down[0].Hello? && s.conns[k].down[0].resumed
    ensures var c := s.conns[k];
            AdviceOk(c.down[0].lastReq, Answers(c, k, s.sess.thread, c.down[1..]), call, c.cut)
  {
    hide PipeOk, CoverOk, ExecOk, ConnsOk, SessionOk;
    assert !HasCall(s.conns[k].up);
    assert GreetingOk(s.conns[k], k, call, s.sess.thread);
  }

  /**
    A copy the server reads of a request that wants a reply and already ran is the request whose
    reply is kept, if it comes on the connection the client is using; only on a connection the
    client has left can the reply be gone.
   */
  lemma CopyIsAnswered(states: seq<State>, steps: seq<Step>, n: nat, k: nat)
    requires IsRun(states, steps) && n < |states| && states[n].sess.thread == Serving(k) && k < |states[n].conns|
    requires states[n].conns[k].up != [] && !states[n].conns[k].up[0].noReply
    requires states[n].conns[k].up[0].place <= states[n].sess.lastReq
    ensures states[n].c.conn == Some(k) ==>
      states[n].conns[k].up[0].place == states[n].sess.lastReplyId == states[n].sess.lastReply.place
  {
    RunInv(states, steps, n);
    var s := states[n];
    if s.c.conn == Some(k) {
      assert ConnOk(s.conns[k], s.c.minted, s.h.calls, s.h.executed, s.sess.lastReq);
      assert Minted(s.conns[k].up[0], s.c.minted, s.h.calls);
    }
  }

  /** One client process: one handshake that starts a session, one session, and all runs in it. */
  lemma OneSession(states: seq<State>, steps: seq<Step>, n: nat)
    requires IsRun(states, steps) && n < |states|
    ensures states[n].h.sessions <= 1
    ensures forall k :: 0 <= k < |states[n].conns| && !states[n].conns[k].resuming ==> k == 0
    ensures forall i :: 0 <= i < |states[n].h.executed| ==> states[n].h.executed[i].session == 1
  {
    RunInv(states, steps, n);
    forall k | 0 <= k < |states[n].conns| && !states[n].conns[k].resuming ensures k == 0 {
      assert HelloOk(states[n].conns[k], k, states[n].c.minted);
    }
  }

  /** Once told the session is gone, the client opens no connection and writes no request. */
  lemma {:induction false} SilentOnceGone(states: seq<State>, steps: seq<Step>, m: nat, n: nat)
    requires IsRun(states, steps) && m <= n < |states| && states[m].c.sessionGone
    ensures states[n].c.sessionGone && |states[n].conns| == |states[m].conns|
    ensures forall k :: 0 <= k < |states[m].conns| ==> states[n].conns[k].sent == states[m].conns[k].sent
  {
    if m < n {
      SilentOnceGone(states, steps, m, n - 1);
      RunInv(states, steps, n - 1);
      assert Moves(states[n - 1], steps[n - 1], states[n]);
      SilentStep(states[n - 1], steps[n - 1]);
    }
  }

  lemma SilentStep(s: State, step: Step)
    requires Enabled(s, step) && s.c.sessionGone && s.mode == Idle && s.c.conn.None?
    ensures Silent(s, Apply(s, step))
  {
    if step.Lookup? || step.Snapshot? || step.Greet? || step.HandOver? {
      SilentAccept(s, step);
    } else {
      SilentElse(s, step);
    }
  }

  /** No connection is opened, and nothing is sent on those there are. */
  ghost predicate Silent(s: State, s': State) {
    && s'.c.sessionGone && |s'.conns| == |s.conns|
    && forall k :: 0 <= k < |s.conns| ==> s'.conns[k].sent == s.conns[k].sent
  }

  lemma SilentAccept(s: State, step: Step)
    requires Enabled(s, step) && s.c.sessionGone
    requires step.Lookup? || step.Snapshot? || step.Greet? || step.HandOver?
    ensures Silent(s, Apply(s, step))
  {
    hide AtOrBefore, WireId;
  }

  lemma SilentElse(s: State, step: Step)
    requires Enabled(s, step) && s.c.sessionGone && s.mode == Idle && s.c.conn.None?
    requires !(step.Lookup? || step.Snapshot? || step.Greet? || step.HandOver?)
    ensures Silent(s, Apply(s, step))
  {
    hide AtOrBefore, WireId, QueueOne, Flush, CallBroke, DropConn, AbandonCall, Answered, HandshakeFailed, ApplyReceive;
  }

  /**
    What is queued is the tail of what is held, the byte count is the true one, and what is held
    stays under the cap, in every reachable state.
   */
  lemma HeldFramesTrue(states: seq<State>, steps: seq<Step>, n: nat)
    requires IsRun(states, steps) && n < |states|
    ensures var c := states[n].c;
            && c.unackedBytes == TotalSize(c.unacked) <= MAX_UNACKED_BYTES
            && |c.unacked| <= 2_796_202
            && (c.replayPossible ==> IsSuffix(c.queued, c.unacked))
  {
    RunInv(states, steps, n);
    HeldFramesCap(states[n].c);
  }
}
