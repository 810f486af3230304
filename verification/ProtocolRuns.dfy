/** Runs of the session protocol, and what is true in every state of one. */
module ProtocolRuns {
  import opened ReqIds
  import opened Wire
  import opened Framing
  import opened Replies
  import opened ClientState
  import opened Protocol
  import opened ProtocolInvariant
  import opened ProtocolSteps

  /** Any steps in any order. */
  ghost predicate IsTrace(states: seq<State>, steps: seq<Step>) {
    && |states| == |steps| + 1
    && states[0] == Init
    && forall i :: 0 <= i < |steps| ==> Goes(states[i], steps[i], states[i + 1])
  }

  ghost predicate Goes(s: State, step: Step, s': State) {
    Enabled(s, step) && s' == Apply(s, step)
  }

  /** Every payload sent or returned is shorter than 2^32 bytes, which is what a length field can say. */
  predicate Short(step: Step) {
    match step
    case QueueOneWay(f) => |f.payload| < ID_SPACE
    case BeginCall(f) => |f.payload| < ID_SPACE
    case Read(result) => |result.payload| < ID_SPACE
    case _ => true
  }

  /** A run: the ids each step compares are inside the window, and no payload is too long for its frame. */
  ghost predicate IsRun(states: seq<State>, steps: seq<Step>) {
    && |states| == |steps| + 1
    && states[0] == Init
    && forall i :: 0 <= i < |steps| ==> Moves(states[i], steps[i], states[i + 1])
  }

  ghost predicate Moves(s: State, step: Step, s': State) {
    Goes(s, step, s') && Window(s, step) && Short(step)
  }

  lemma RunIsTrace(states: seq<State>, steps: seq<Step>)
    requires IsRun(states, steps)
    ensures IsTrace(states, steps)
  {
    hide Goes, Window, Short;
    forall i | 0 <= i < |steps| ensures Goes(states[i], steps[i], states[i + 1]) {
      assert Moves(states[i], steps[i], states[i + 1]);
    }
  }

  lemma {:induction false} RunInv(states: seq<State>, steps: seq<Step>, n: nat)
    requires IsRun(states, steps) && n < |states|
    ensures Inv(states[n])
  {
    hide Inv, Enabled, Apply;
    if n == 0 {
      InitOk();
    } else {
      RunInv(states, steps, n - 1);
      assert Moves(states[n - 1], steps[n - 1], states[n]);
      StepKeeps(states[n - 1], steps[n - 1]);
    }
  }

  // --- frames and replies that fit their length field --------------------------------

  ghost predicate Measured(s: State) {
    && Sendable(s.c.queued) && Sendable(s.c.unacked)
    && (forall k :: 0 <= k < |s.conns| ==> Sendable(s.conns[k].up))
    && (forall i :: 0 <= i < |s.h.executed| ==> |s.h.executed[i].result.payload| < ID_SPACE)
  }

  function ReplyOnWire(r: Reply): WireReply {
    WireReply(WireId(r.place), r.result.code, r.result.payload)
  }

  lemma MeasuredDrop(s: State, k: nat)
    requires Measured(s) && k < |s.conns|
    ensures Measured(DropConn(s, k))
  {
    assert forall i :: 0 <= i < |s.conns| ==> DropConn(s, k).conns[i].up == s.conns[i].up;
  }

  lemma MeasuredBroke(s: State, call: nat, attempt: nat)
    requires Measured(s)
    ensures Measured(AbandonCall(s, call)) && Measured(CallBroke(s, call, attempt))
  {
    hide WireId, TotalSize;
  }

  /** Frames fit that are written behind frames that fit. */
  lemma MeasuredWrite(s: State, k: nat, fs: seq<Frame>)
    requires Measured(s) && k < |s.conns| && Sendable(fs)
    ensures Measured(SetConn(s, k, WriteUp(s.conns[k], fs)))
  {
    var s' := SetConn(s, k, WriteUp(s.conns[k], fs));
    assert Sendable(s'.conns[k].up);
    assert forall i :: 0 <= i < |s.conns| && i != k ==> s'.conns[i] == s.conns[i];
  }

  lemma MeasuredFlush(s: State, k: nat, ok: bool, count: nat)
    requires Measured(s) && k < |s.conns| && count <= |s.c.queued|
    ensures Measured(Flush(s, k, ok, count))
  {
    hide WriteUp;
    var part := if ok then s.c.queued else s.c.queued[..count];
    assert Sendable(part);
    MeasuredWrite(s, k, part);
    var t := SetConn(s, k, WriteUp(s.conns[k], part)).(c := s.c.(queued := []));
    assert Measured(t);
    MeasuredDrop(t, k);
  }

  lemma MeasuredClient(s: State, step: Step)
    requires Measured(s) && Enabled(s, step) && Short(step)
    requires step.QueueOneWay? || step.FlushIdle? || step.BeginCall? || step.FlushCall? || step.Receive?
             || step.ReceiveFails? || step.GiveUp?
    ensures Measured(Apply(s, step))
  {
    match step
    case QueueOneWay(_) =>
    case BeginCall(_) =>
    case FlushIdle(ok, count) => MeasuredFlush(s, s.c.conn.value, ok, count);
    case FlushCall(ok, count) => MeasuredFlushCall(s, ok, count);
    case Receive => MeasuredReceive(s);
    case ReceiveFails =>
      hide Measured, DropConn, CallBroke;
      MeasuredDrop(s, s.c.conn.value);
      MeasuredBroke(DropConn(s, s.c.conn.value), s.mode.call, s.mode.attempt);
    case GiveUp(_) =>
      MeasuredBroke(s.(c := s.c.(connectFailed := s.c.connectFailed || s.c.replayPossible)), s.mode.call, 0);
  }

  lemma MeasuredFlushCall(s: State, ok: bool, count: nat)
    requires Measured(s) && Indexed(s) && s.mode.Flushing? && s.c.conn.Some? && count <= |s.c.queued|
    ensures Measured(Apply(s, FlushCall(ok, count)))
  {
    MeasuredFlush(s, s.c.conn.value, ok, count);
    hide Flush;
    MeasuredBroke(Flush(s, s.c.conn.value, ok, count), s.mode.call, s.mode.attempt);
  }

  lemma MeasuredReceive(s: State)
    requires Measured(s) && Indexed(s) && s.mode.Waiting? && s.c.conn.Some? && s.conns[s.c.conn.value].down != []
    ensures Measured(ApplyReceive(s))
  {
    hide AtOrBefore, WireId, AckedCount, TotalSize;
    var k := s.c.conn.value;
    MeasuredDrop(s, k);
    MeasuredBroke(DropConn(s, k), s.mode.call, s.mode.attempt);
    hide DropConn, CallBroke, AbandonCall;
  }

  lemma MeasuredAnswered(s: State, k: nat, call: nat, resumed: bool, lastReq: nat, ok: bool, count: nat)
    requires Measured(s) && k < |s.conns| && s.conns[k].down != []
    ensures Measured(Answered(s, k, call, resumed, lastReq, ok, count))
  {
    hide AtOrBefore, WireId, AckedCount, TotalSize;
    var read := SetConn(s, k, s.conns[k].(down := s.conns[k].down[1..]));
    assert forall i :: 0 <= i < |s.conns| ==> read.conns[i].up == s.conns[i].up;
    if s.c.hadSession && !resumed {
      MeasuredDrop(read.(c := LoseSession(s.c)), k);
      MeasuredBroke(DropConn(read.(c := LoseSession(s.c)), k), call, 0);
    } else {
      var c := Attach(s.c, k, resumed, lastReq);
      assert Sendable(c.unacked) && Sendable(c.queued);
      var t := read.(c := c, h := s.h.(gapped := s.h.gapped || (resumed && !s.c.replayPossible)));
      var part := if count <= |c.unacked| then c.unacked[..count] else c.unacked;
      assert Sendable(part);
      hide Attach;
      MeasuredWrite(t, k, c.unacked);
      MeasuredWrite(t, k, part);
      MeasuredDrop(SetConn(t, k, WriteUp(t.conns[k], part)), k);
      hide WriteUp, DropConn, SetConn;
    }
  }

  lemma MeasuredConnect(s: State, step: Step)
    requires Measured(s) && Enabled(s, step)
    requires step.Unreachable? || step.Open? || step.HandshakeFails? || step.HandshakeDone?
    ensures Measured(Apply(s, step))
  {
    if step.HandshakeFails? || step.HandshakeDone? {
      MeasuredDrop(s, s.mode.k);
    }
    if step.HandshakeDone? && s.conns[s.mode.k].down[0].Hello? {
      var d := s.conns[s.mode.k].down[0];
      MeasuredAnswered(s, s.mode.k, s.mode.forCall, d.resumed, d.lastReq, step.ok, step.count);
    }
    hide Answered, DropConn;
  }

  lemma MeasuredGreet(s: State, step: Step)
    requires Measured(s) && Enabled(s, step) && (step.Lookup? || step.Snapshot? || step.Greet?)
    ensures Measured(Apply(s, step))
  {
    hide AtOrBefore, WireId;
  }

  lemma MeasuredHandOver(s: State, step: Step)
    requires Measured(s) && Enabled(s, step) && (step.SendUnanswered? || step.HandOver? || step.Lose?)
    ensures Measured(Apply(s, step))
  {
  }

  lemma MeasuredServe(s: State, step: Step)
    requires Measured(s) && Enabled(s, step) && Short(step)
    requires step.Take? || step.Expire? || step.Erase? || step.Complete? || step.Send? || step.Break?
    ensures Measured(Apply(s, step))
  {
  }

  lemma MeasuredRead(s: State, step: Step)
    requires Measured(s) && Enabled(s, step) && Short(step) && step.Read?
    ensures Measured(Apply(s, step))
  {
    hide AtOrBefore, WireId;
  }

  lemma MeasuredStep(s: State, step: Step)
    requires Measured(s) && Enabled(s, step) && Short(step)
    ensures Measured(Apply(s, step))
  {
    hide *;
    if step.QueueOneWay? || step.FlushIdle? || step.BeginCall? || step.FlushCall? || step.Receive?
       || step.ReceiveFails? || step.GiveUp? {
      MeasuredClient(s, step);
    } else if step.Unreachable? || step.Open? || step.HandshakeFails? || step.HandshakeDone? {
      MeasuredConnect(s, step);
    } else if step.Lookup? || step.Snapshot? || step.Greet? {
      MeasuredGreet(s, step);
    } else if step.SendUnanswered? || step.HandOver? || step.Lose? {
      MeasuredHandOver(s, step);
    } else if step.Read? {
      MeasuredRead(s, step);
    } else {
      MeasuredServe(s, step);
    }
  }

  /** In every state of a run, everything on its way or recorded fits its length field. */
  lemma {:induction false} RunMeasured(states: seq<State>, steps: seq<Step>, n: nat)
    requires IsRun(states, steps) && n < |states|
    ensures Measured(states[n])
  {
    hide Enabled, Apply;
    if n > 0 {
      RunMeasured(states, steps, n - 1);
      assert Moves(states[n - 1], steps[n - 1], states[n]);
      MeasuredStep(states[n - 1], steps[n - 1]);
    }
  }
}
