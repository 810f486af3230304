/** Every step of the session protocol keeps the invariant. */
module ProtocolSteps {
  import opened Wrappers
  import opened ReqIds
  import opened Wire
  import opened ClientState
  import opened Protocol
  import opened ProtocolInvariant
  import opened ServingSteps
  import opened AcceptSteps
  import opened ClientSteps
  import opened HandshakeSteps

  /** The client is told the session is gone, in terms of its parts. */
  lemma GoneShape(s: State, k: nat, call: nat, last: nat, ok: bool, count: nat)
    requires k < |s.conns| && s.conns[k].down != [] && s.c.hadSession
    ensures var s' := Answered(s, k, call, false, last, ok, count);
            && s'.mode == Idle && s'.sess == s.sess
            && s'.c == LoseSession(s.c).(conn := None, lastReply := if call == 0 then s.c.lastReply else call)
            && s'.h == s.h.(abandoned := s.h.abandoned + if call == 0 then {} else {call})
            && s'.conns == s.conns[k := s.conns[k].(down := s.conns[k].down[1..], cut := true)]
  {
  }

  ghost function Rejoined(s: State, k: nat, call: nat): State
    requires k < |s.conns| && s.conns[k].down != [] && s.conns[k].down[0].Hello?
  {
    var c := Attach(s.c, k, true, s.conns[k].down[0].lastReq);
    SetConn(s, k, s.conns[k].(down := s.conns[k].down[1..]))
    .(c := c.(queued := c.unacked), mode := if call == 0 then Idle else Flushing(call, 0),
      h := s.h.(gapped := s.h.gapped || !s.c.replayPossible))
  }

  ghost function AllWritten(t: State, k: nat): State
    requires k < |t.conns| && (t.mode.Idle? || t.mode.Flushing?)
  {
    SetConn(t, k, WriteUp(t.conns[k], t.c.queued))
    .(c := t.c.(queued := []), mode := if t.mode.Idle? then Idle else Waiting(t.mode.call, t.mode.attempt))
  }

  ghost function PartWritten(t: State, k: nat, part: seq<Frame>): State
    requires k < |t.conns| && (t.mode.Idle? || t.mode.Flushing? || t.mode.Waiting?)
  {
    SetConn(t, k, WriteUp(t.conns[k], part).(cut := true))
    .(c := t.c.(queued := [], conn := None), mode := if t.mode.Idle? then Idle else Reconnecting(t.mode.call))
  }

  /** Resuming is taking the session back and then writing what is held, in terms of its parts. */
  lemma ResendShape(s: State, t: State, s': State, k: nat, call: nat, ok: bool, count: nat, part: seq<Frame>)
    requires Indexed(s) && s.mode == Shaking(k, call) && s.conns[k].down != []
    requires s.conns[k].down[0].Hello? && s.conns[k].down[0].resumed
    requires t == Rejoined(s, k, call)
    requires s' == Answered(s, k, call, true, s.conns[k].down[0].lastReq, ok, count)
    requires part == if count <= |t.c.queued| then t.c.queued[..count] else t.c.queued
    ensures Resumed(s, t, k, call) && t.c.conn == Some(k)
    ensures if ok then s' == AllWritten(t, k).(mode := if call == 0 then Idle else Flushing(call, 1))
            else part <= t.c.queued && s' == PartWritten(t, k, part)
  {
  }

  lemma AnsweredResumed(s: State, s': State, k: nat, call: nat, ok: bool, count: nat)
    requires Inv(s) && s.mode == Shaking(k, call) && s.conns[k].down != []
    requires NearFrames(s, s.c.unacked)
    requires s.conns[k].down[0].Hello? && s.conns[k].down[0].resumed && Near(s, s.conns[k].down[0].lastReq)
    requires s' == Answered(s, k, call, true, s.conns[k].down[0].lastReq, ok, count)
    ensures Inv(s')
  {
    var t := Rejoined(s, k, call);
    var part := if count <= |t.c.queued| then t.c.queued[..count] else t.c.queued;
    ResendShape(s, t, s', k, call, ok, count, part);
    ResumedKeeps(s, t, s', k, call, ok, part);
  }

  lemma ResumedKeeps(s: State, t: State, s': State, k: nat, call: nat, ok: bool, part: seq<Frame>)
    requires Inv(s) && Resumed(s, t, k, call) && t.c.conn == Some(k)
    requires NearFrames(s, s.c.unacked) && Near(s, s.conns[k].down[0].lastReq)
    requires if ok then s' == AllWritten(t, k).(mode := if call == 0 then Idle else Flushing(call, 1))
             else part <= t.c.queued && s' == PartWritten(t, k, part)
    ensures Inv(s')
  {
    ResumeKeeps(s, t, k, call);
    ResendKeeps(t, s', k, call, ok, part);
  }

  lemma AnsweredNew(s: State, s': State, k: nat, call: nat, last: nat, ok: bool, count: nat)
    requires Inv(s) && s.mode == Shaking(k, call) && s.conns[k].down != [] && s.conns[k].down[0] == Hello(false, last)
    requires s' == Answered(s, k, call, false, last, ok, count)
    ensures Inv(s')
  {
    if s.c.hadSession {
      GoneShape(s, k, call, last, ok, count);
      GoneKeeps(s, s', k, call);
    } else {
      StartedKeeps(s, s', k);
    }
  }

  /** What is held is written again, all of it or part of it. */
  lemma ResendKeeps(t: State, s': State, k: nat, call: nat, ok: bool, part: seq<Frame>)
    requires Inv(t) && t.c.conn == Some(k) && t.mode == if call == 0 then Idle else Flushing(call, 0)
    requires if ok then s' == AllWritten(t, k).(mode := if call == 0 then Idle else Flushing(call, 1))
             else part <= t.c.queued && s' == PartWritten(t, k, part)
    ensures Inv(s')
  {
    if ok {
      FlushKeeps(t, AllWritten(t, k), k);
      if call != 0 {
        RelabelKeeps(AllWritten(t, k), s');
      }
    } else {
      DropKeeps(t, s', k, part);
    }
  }

  lemma FlushShape(s: State, k: nat, ok: bool, count: nat)
    requires Indexed(s) && s.c.conn == Some(k) && (s.mode.Idle? || s.mode.Flushing?) && count <= |s.c.queued|
    ensures ok ==> Flush(s, k, ok, count).(mode := AllWritten(s, k).mode) == AllWritten(s, k)
    ensures !ok ==>
      Flush(s, k, ok, count).(mode := PartWritten(s, k, s.c.queued[..count]).mode)
      == PartWritten(s, k, s.c.queued[..count])
  {
  }

  lemma FlushOkKeeps(s: State, s': State, k: nat, count: nat)
    requires Inv(s) && (s.mode.Idle? || s.mode.Flushing?) && s.c.conn == Some(k) && count <= |s.c.queued|
    requires s' == Flush(s, k, true, count)
                   .(mode := if s.mode.Idle? then Idle else Waiting(s.mode.call, s.mode.attempt))
    ensures Inv(s')
  {
    FlushShape(s, k, true, count);
    FlushKeeps(s, s', k);
  }

  lemma FlushFailsKeeps(s: State, s': State, k: nat, count: nat)
    requires Inv(s)
    requires (s.mode.Idle? || s.mode.Flushing?) && s.c.conn == Some(k) && count <= |s.c.queued|
    requires s.mode.Idle? || s.mode.attempt == 0 || NearBack(s)
    requires var t := Flush(s, k, false, count);
             s' == if s.mode.Idle? then t else CallBroke(t, s.mode.call, s.mode.attempt)
    ensures Inv(s')
  {
    FlushShape(s, k, false, count);
    var part := s.c.queued[..count];
    BrokenKeeps(s, PartWritten(s, k, part), s', k, part);
  }

  /** The connection broke; inside a call the second time, that is the end of the call. */
  lemma BrokenKeeps(s: State, t: State, s': State, k: nat, part: seq<Frame>)
    requires Inv(s) && Dropped(s, t, k, part) && (s.mode.Idle? || s.mode.attempt == 0 || NearBack(s))
    requires s' == if s.mode.Idle? || s.mode.attempt == 0 then t else AbandonCall(t, s.mode.call)
    ensures Inv(s')
  {
    DropKeeps(s, t, k, part);
    if !s.mode.Idle? && s.mode.attempt != 0 {
      AbandonKeeps(t, s', s.mode.call);
    }
  }

  lemma ReceiveFailsKeeps(s: State, s': State, k: nat)
    requires Inv(s) && s.mode.Waiting? && s.c.conn == Some(k) && (s.mode.attempt == 0 || NearBack(s))
    requires s' == CallBroke(DropConn(s, k), s.mode.call, s.mode.attempt)
    ensures Inv(s')
  {
    ReceiveFailsShape(s, k);
    BrokenKeeps(s, PartWritten(s, k, []), s', k, []);
  }

  lemma ReceiveFailsShape(s: State, k: nat)
    requires Indexed(s) && s.c.conn == Some(k) && s.mode.Waiting? && s.c.queued == []
    ensures DropConn(s, k).(mode := Reconnecting(s.mode.call)) == PartWritten(s, k, [])
  {
    assert s.conns[k].up + [] == s.conns[k].up && s.conns[k].sent + [] == s.conns[k].sent;
  }

  lemma GiveUpKeeps(s: State, s': State)
    requires Inv(s) && NearBack(s) && s.mode.Reconnecting?
    requires s' == AbandonCall(s.(c := s.c.(connectFailed := s.c.connectFailed || s.c.replayPossible)), s.mode.call)
    ensures Inv(s')
  {
    var t := s.(c := s.c.(connectFailed := s.c.connectFailed || s.c.replayPossible));
    MarkKeeps(s, t, t.c.connectFailed);
    AbandonKeeps(t, s', s.mode.call);
  }

  lemma FlushEither(s: State, s': State, ok: bool, count: nat)
    requires Inv(s)
    requires (s.mode.Idle? || s.mode.Flushing?) && s.c.conn.Some? && count <= |s.c.queued|
    requires ok || s.mode.Idle? || s.mode.attempt == 0 || NearBack(s)
    requires var t := Flush(s, s.c.conn.value, ok, count);
             s' == if s.mode.Idle? then t
                   else if ok then t.(mode := Waiting(s.mode.call, s.mode.attempt))
                   else CallBroke(t, s.mode.call, s.mode.attempt)
    ensures Inv(s')
  {
    if ok {
      FlushOkKeeps(s, s', s.c.conn.value, count);
    } else {
      FlushFailsKeeps(s, s', s.c.conn.value, count);
    }
  }

  lemma CallStepKeeps(s: State, step: Step)
    requires Inv(s) && Enabled(s, step) && Window(s, step)
    requires step.QueueOneWay? || step.FlushIdle? || step.BeginCall? || step.FlushCall? || step.Receive?
             || step.ReceiveFails?
    ensures Inv(Apply(s, step))
  {
    hide HeldOk, ClientOk, CallHeld, SessionOk, ExecOk, ConnsOk, PipeOk, ShakeOk, CoverOk;
    hide QueueOne, Flush, CallBroke, DropConn, AbandonCall;
    var s' := Apply(s, step);
    match step
    case QueueOneWay(f) => QueueKeeps(s, s', f);
    case FlushIdle(ok, count) => FlushEither(s, s', ok, count);
    case BeginCall(f) => QueueKeeps(s, s', f);
    case FlushCall(ok, count) => FlushEither(s, s', ok, count);
    case Receive => ReceiveKeeps(s, s');
    case ReceiveFails => ReceiveFailsKeeps(s, s', s.c.conn.value);
  }

  lemma ConnectStepKeeps(s: State, step: Step)
    requires Inv(s) && Enabled(s, step) && Window(s, step)
    requires step.GiveUp? || step.Unreachable? || step.Open? || step.HandshakeFails? || step.HandshakeDone?
    ensures Inv(Apply(s, step))
  {
    hide HeldOk, ClientOk, CallHeld, SessionOk, ExecOk, ConnsOk, PipeOk, ShakeOk, CoverOk;
    hide DropConn, AbandonCall, HandshakeFailed, Answered;
    var s' := Apply(s, step);
    match step
    case GiveUp(_) => GiveUpKeeps(s, s');
    case Unreachable => MarkKeeps(s, s', true);
    case Open => OpenKeeps(s, s');
    case HandshakeFails => HandshakeFailsKeeps(s, s');
    case HandshakeDone(ok, count) =>
      var d := s.conns[s.mode.k].down[0];
      if !d.Hello? {
        HandshakeFailsKeeps(s, s');
      } else if d.resumed {
        AnsweredResumed(s, s', s.mode.k, s.mode.forCall, ok, count);
      } else {
        AnsweredNew(s, s', s.mode.k, s.mode.forCall, d.lastReq, ok, count);
      }
  }

  lemma AcceptStepKeeps(s: State, step: Step)
    requires Inv(s) && Enabled(s, step) && Window(s, step)
    requires step.Lookup? || step.Snapshot? || step.Greet? || step.SendUnanswered? || step.HandOver? || step.Lose?
    ensures Inv(Apply(s, step))
  {
    hide HeldOk, ClientOk, CallHeld, SessionOk, ExecOk, ConnsOk, PipeOk, ShakeOk, CoverOk;
    hide ApplyLookup, ApplySnapshot, ApplyGreet, ApplyHandOver, WriteDown, Shut, AtOrBefore;
    var s' := Apply(s, step);
    match step
    case Lookup(k, full) => LookupKeeps(s, s', k, full);
    case Snapshot(k) => SnapshotKeeps(s, s', k);
    case Greet(k, ok) => if ok { GreetOkKeeps(s, s', k); } else { GreetFailsKeeps(s, s', k); }
    case SendUnanswered(k, ok) => if ok { SendUnansweredKeeps(s, s', k); } else { ShutKeeps(s, s', k); }
    case HandOver(k) => HandOverKeeps(s, s', k);
    case Lose(k, u, d) => LoseKeeps(s, s', k, u, d);
  }

  lemma ServingStepKeeps(s: State, step: Step)
    requires Inv(s) && Enabled(s, step) && Window(s, step)
    requires step.Take? || step.Expire? || step.Erase? || step.Read? || step.Complete? || step.Send? || step.Break?
    ensures Inv(Apply(s, step))
  {
    hide HeldOk, ClientOk, CallHeld, SessionOk, ExecOk, ConnsOk, PipeOk, ShakeOk, CoverOk;
    hide ApplyRead, ApplyComplete, WriteDown, Shut, AtOrBefore, WireId;
    var s' := Apply(s, step);
    match step
    case Take => TakeKeeps(s, s');
    case Expire => ExpireKeeps(s, s');
    case Erase => EraseKeeps(s, s');
    case Read(r) =>
      if AtOrBefore(WireId(s.conns[s.sess.thread.k].up[0].place), WireId(s.sess.lastReq)) {
        ReadCopyKeeps(s, s', r);
      } else {
        ReadRunKeeps(s, s', r);
      }
    case Complete => CompleteKeeps(s, s');
    case Send => SendKeeps(s, s');
    case Break => BreakKeeps(s, s');
  }

  /** Every step of the machine keeps the invariant, while ids stay inside the window. */
  lemma StepKeeps(s: State, step: Step)
    requires Inv(s) && Enabled(s, step) && Window(s, step)
    ensures Inv(Apply(s, step))
  {
    hide *;
    match step
    case QueueOneWay(_) => CallStepKeeps(s, step);
    case FlushIdle(_, _) => CallStepKeeps(s, step);
    case BeginCall(_) => CallStepKeeps(s, step);
    case FlushCall(_, _) => CallStepKeeps(s, step);
    case Receive => CallStepKeeps(s, step);
    case ReceiveFails => CallStepKeeps(s, step);
    case GiveUp(_) => ConnectStepKeeps(s, step);
    case Unreachable => ConnectStepKeeps(s, step);
    case Open => ConnectStepKeeps(s, step);
    case HandshakeFails => ConnectStepKeeps(s, step);
    case HandshakeDone(_, _) => ConnectStepKeeps(s, step);
    case Lookup(_, _) => AcceptStepKeeps(s, step);
    case Snapshot(_) => AcceptStepKeeps(s, step);
    case Greet(_, _) => AcceptStepKeeps(s, step);
    case SendUnanswered(_, _) => AcceptStepKeeps(s, step);
    case HandOver(_) => AcceptStepKeeps(s, step);
    case Lose(_, _, _) => AcceptStepKeeps(s, step);
    case _ => ServingStepKeeps(s, step);
  }
}
