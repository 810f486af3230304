/** The client's steps on a connection it has, and its failures, keep the invariant. */
module ClientSteps {
  import opened Wrappers
  import opened ReqIds
  import opened Wire
  import opened ClientState
  import opened Protocol
  import opened ProtocolInvariant
  import opened Coverage
  import opened ServingSteps

  lemma FramesNext(fs: seq<Frame>, f: Frame, minted: nat, calls: set<nat>, calls': set<nat>)
    requires FramesOk(fs, minted, calls) && f.place == minted + 1
    requires forall m :: m <= minted ==> (m in calls <==> m in calls')
    requires f.noReply <==> f.place !in calls'
    ensures FramesOk(fs + [f], minted + 1, calls')
    ensures FramesOk(fs, minted + 1, calls')
  {
    assert Minted(f, minted + 1, calls');
    assert forall i :: 0 <= i < |fs| ==> Minted(fs[i], minted, calls) && Minted(fs[i], minted + 1, calls');
  }

  /** The state after a frame is queued, as a call or without a reply. */
  ghost predicate Queued(s: State, s': State, f: Frame) {
    && Indexed(s) && s.mode.Idle? && s.c.conn.Some? && f.place == s.c.minted + 1
    && s' == s.(c := QueueOne(s.c, f),
                mode := if f.noReply then Idle else Flushing(f.place, 0),
                h := s.h.(calls := s.h.calls + if f.noReply then {} else {f.place}))
  }

  lemma QueueKeeps(s: State, s': State, f: Frame)
    requires Inv(s) && Queued(s, s', f)
    ensures Inv(s')
  {
    QueueOneKeepsHeld(s.c, f);
    QueueClient(s, s', f);
    QueueHeld(s, s', f);
    QueueServer(s, s', f);
    QueueCover(s, s', f);
    QueuePipe(s, s', f);
  }

  lemma QueueClient(s: State, s': State, f: Frame)
    requires ClientOk(s.c, ForCall(s.mode), s.h.calls) && Queued(s, s', f)
    requires ModeOk(s.c, s.mode, s.h.calls, |s.conns|)
    ensures ClientOk(s'.c, ForCall(s'.mode), s'.h.calls) && ModeOk(s'.c, s'.mode, s'.h.calls, |s.conns|)
  {
    FramesNext(s.c.queued, f, s.c.minted, s.h.calls, s'.h.calls);
    FramesNext(s.c.unacked, f, s.c.minted, s.h.calls, s'.h.calls);
    assert FramesOk([], s'.c.minted, s'.h.calls);
    hide FramesOk, Size;
  }

  lemma QueueHeld(s: State, s': State, f: Frame)
    requires Queued(s, s', f)
    ensures CallHeld(s'.c, ForCall(s'.mode), s'.sess.lastReq)
  {
    hide Size;
    if s'.c.replayPossible {
      assert s'.c.unacked[|s.c.unacked|] == f;
    }
  }

  lemma QueueServer(s: State, s': State, f: Frame)
    requires Queued(s, s', f) && ClientOk(s.c, ForCall(s.mode), s.h.calls)
    requires SessionOk(s.c, s.mode, s.conns, s.sess, s.h) && ExecOk(s.sess, s.h, s.c.minted)
    requires ConnsOk(s.c, s.conns, s.h, s.sess.lastReq)
    ensures SessionOk(s'.c, s'.mode, s'.conns, s'.sess, s'.h) && ExecOk(s'.sess, s'.h, s'.c.minted)
    ensures ConnsOk(s'.c, s'.conns, s'.h, s'.sess.lastReq)
  {
    QueueConns(s, s', f);
    hide ConnsOk, QueueOne, FramesOk;
  }

  lemma QueueConns(s: State, s': State, f: Frame)
    requires Queued(s, s', f) && ClientOk(s.c, ForCall(s.mode), s.h.calls)
    requires ConnsOk(s.c, s.conns, s.h, s.sess.lastReq)
    ensures ConnsOk(s'.c, s'.conns, s'.h, s'.sess.lastReq)
  {
    hide QueueOne;
    forall k | 0 <= k < |s.conns|
      ensures ConnOk(s.conns[k], s'.c.minted, s'.h.calls, s.h.executed, s.sess.lastReq)
    {
      assert ConnOk(s.conns[k], s.c.minted, s.h.calls, s.h.executed, s.sess.lastReq);
      FramesNext(s.conns[k].up, f, s.c.minted, s.h.calls, s'.h.calls);
    }
    var up := s.conns[s.c.conn.value].up;
    assert ConnOk(s.conns[s.c.conn.value], s.c.minted, s.h.calls, s.h.executed, s.sess.lastReq);
    forall i, j | 0 <= i < |up| && 0 <= j < |s'.c.queued| ensures up[i].place < s'.c.queued[j].place {
      assert Minted(up[i], s.c.minted, s.h.calls);
    }
  }

  lemma QueueCover(s: State, s': State, f: Frame)
    requires Queued(s, s', f) && CoverOk(s.c, s.conns, s.h)
    ensures CoverOk(s'.c, s'.conns, s'.h)
  {
    if !s.h.gapped {
      if s'.c.replayPossible && !s.c.sessionGone {
        CoveredNext(s.c.unacked, f, Done(s), s.h.abandoned);
      }
      var up := s.conns[s.c.conn.value].up;
      if !s.conns[s.c.conn.value].cut {
        CoveredNext(up + s.c.queued, f, Done(s), s.h.abandoned);
        assert up + (s.c.queued + [f]) == up + s.c.queued + [f];
      }
    }
  }

  lemma QueuePipe(s: State, s': State, f: Frame)
    requires Queued(s, s', f) && PipeOk(s.c, s.mode, s.conns, s.sess.thread)
    requires ClientOk(s.c, ForCall(s.mode), s.h.calls)
    ensures PipeOk(s'.c, s'.mode, s'.conns, s'.sess.thread)
  {
    var q := s.c.queued;
    assert s'.c.queued[|q|] == f;
    assert HasCall(s'.c.queued) <==> HasCall(q) || !f.noReply;
    var c := s.conns[s.c.conn.value];
    assert Answers(c, s.c.conn.value, s.sess.thread, c.down) == 0;
  }

  // --- writing ----------------------------------------------------------------------

  /** flush_locked wrote the whole queue. */
  ghost predicate Flushed(s: State, s': State, k: nat) {
    && Indexed(s) && s.c.conn == Some(k) && (s.mode.Idle? || s.mode.Flushing?)
    && s' == SetConn(s, k, WriteUp(s.conns[k], s.c.queued))
             .(c := s.c.(queued := []),
               mode := if s.mode.Idle? then Idle else Waiting(s.mode.call, s.mode.attempt))
  }

  lemma FlushKeeps(s: State, s': State, k: nat)
    requires Inv(s) && Flushed(s, s', k)
    ensures Inv(s')
  {
    FlushConns(s, s', k);
    FlushCover(s, s', k);
    FlushPipe(s, s', k);
    FlushClient(s, s', k);
    FlushSession(s, s', k);
  }

  lemma FlushClient(s: State, s': State, k: nat)
    requires Flushed(s, s', k) && HeldOk(s.c) && ModeOk(s.c, s.mode, s.h.calls, |s.conns|)
    requires ClientOk(s.c, ForCall(s.mode), s.h.calls)
    ensures HeldOk(s'.c) && ModeOk(s'.c, s'.mode, s'.h.calls, |s'.conns|)
    ensures ClientOk(s'.c, ForCall(s'.mode), s'.h.calls)
  {
  }

  lemma FlushSession(s: State, s': State, k: nat)
    requires Flushed(s, s', k) && SessionOk(s.c, s.mode, s.conns, s.sess, s.h)
    ensures SessionOk(s'.c, s'.mode, s'.conns, s'.sess, s'.h)
  {
  }

  lemma FramesJoined(a: seq<Frame>, b: seq<Frame>, minted: nat, calls: set<nat>)
    requires FramesOk(a, minted, calls) && FramesOk(b, minted, calls) && Before(a, b)
    ensures FramesOk(a + b, minted, calls)
  {
    forall i | 0 <= i < |a + b| ensures Minted((a + b)[i], minted, calls) {
      if i < |a| {
        assert Minted(a[i], minted, calls);
      } else {
        assert Minted(b[i - |a|], minted, calls);
      }
    }
  }

  lemma FlushConns(s: State, s': State, k: nat)
    requires Flushed(s, s', k) && ConnsOk(s.c, s.conns, s.h, s.sess.lastReq)
    requires ClientOk(s.c, ForCall(s.mode), s.h.calls)
    ensures ConnsOk(s'.c, s'.conns, s'.h, s'.sess.lastReq)
  {
    FramesJoined(s.conns[k].up, s.c.queued, s.c.minted, s.h.calls);
  }

  lemma FlushCover(s: State, s': State, k: nat)
    requires Flushed(s, s', k) && CoverOk(s.c, s.conns, s.h)
    requires ConnsOk(s.c, s.conns, s.h, s.sess.lastReq) && ClientOk(s.c, ForCall(s.mode), s.h.calls)
    ensures CoverOk(s'.c, s'.conns, s'.h)
  {
    if !s.h.gapped && !s.conns[k].cut {
      var up, q := s.conns[k].up, s.c.queued;
      FramesJoined(up, q, s.c.minted, s.h.calls);
      UpExtended(up, q, s.c.minted, Done(s), s.h.abandoned);
      assert up + q + [] == up + q;
    }
  }

  lemma FlushPipe(s: State, s': State, k: nat)
    requires Flushed(s, s', k) && PipeOk(s.c, s.mode, s.conns, s.sess.thread)
    requires ClientOk(s.c, ForCall(s.mode), s.h.calls)
    ensures PipeOk(s'.c, s'.mode, s'.conns, s'.sess.thread)
  {
    var up, q := s.conns[k].up, s.c.queued;
    CallsJoined(up, q, ForCall(s.mode));
  }

  lemma CallsJoined(a: seq<Frame>, b: seq<Frame>, call: nat)
    ensures HasCall(a + b) <==> HasCall(a) || HasCall(b)
    ensures OnlyCall(a, call) && OnlyCall(b, call) ==> OnlyCall(a + b, call)
  {
    if HasCall(a) {
      var i :| 0 <= i < |a| && !a[i].noReply;
      assert (a + b)[i] == a[i];
    }
    if HasCall(b) {
      var i :| 0 <= i < |b| && !b[i].noReply;
      assert (a + b)[|a| + i] == b[i];
    }
  }

  /** The connection broke under the client, after `part` of the queue was written. */
  ghost predicate Dropped(s: State, s': State, k: nat, part: seq<Frame>) {
    && Indexed(s) && s.c.conn == Some(k) && (s.mode.Idle? || s.mode.Flushing? || s.mode.Waiting?)
    && part <= s.c.queued
    && s' == SetConn(s, k, WriteUp(s.conns[k], part).(cut := true))
             .(c := s.c.(queued := [], conn := None),
               mode := if s.mode.Idle? then Idle else Reconnecting(s.mode.call))
  }

  lemma DropKeeps(s: State, s': State, k: nat, part: seq<Frame>)
    requires Inv(s) && Dropped(s, s', k, part)
    ensures Inv(s')
  {
    DropConns(s, s', k, part);
    DropCover(s, s', k, part);
    DropClient(s, s', k, part);
    DropSession(s, s', k, part);
  }

  lemma DropClient(s: State, s': State, k: nat, part: seq<Frame>)
    requires Dropped(s, s', k, part) && HeldOk(s.c) && ModeOk(s.c, s.mode, s.h.calls, |s.conns|)
    requires ClientOk(s.c, ForCall(s.mode), s.h.calls)
    ensures HeldOk(s'.c) && ModeOk(s'.c, s'.mode, s'.h.calls, |s'.conns|)
    ensures ClientOk(s'.c, ForCall(s'.mode), s'.h.calls)
  {
  }

  lemma DropSession(s: State, s': State, k: nat, part: seq<Frame>)
    requires Dropped(s, s', k, part) && SessionOk(s.c, s.mode, s.conns, s.sess, s.h)
    ensures SessionOk(s'.c, s'.mode, s'.conns, s'.sess, s'.h)
  {
  }

  lemma DropConns(s: State, s': State, k: nat, part: seq<Frame>)
    requires Dropped(s, s', k, part) && ConnsOk(s.c, s.conns, s.h, s.sess.lastReq)
    requires ClientOk(s.c, ForCall(s.mode), s.h.calls)
    ensures ConnsOk(s'.c, s'.conns, s'.h, s'.sess.lastReq)
  {
    var q := s.c.queued;
    FramesPart(q, s.c.minted, s.h.calls, 0, |part|);
    assert q[0..|part|] == part;
    FramesJoined(s.conns[k].up, part, s.c.minted, s.h.calls);
  }

  lemma DropCover(s: State, s': State, k: nat, part: seq<Frame>)
    requires Dropped(s, s', k, part) && CoverOk(s.c, s.conns, s.h)
    requires ConnsOk(s.c, s.conns, s.h, s.sess.lastReq) && ClientOk(s.c, ForCall(s.mode), s.h.calls)
    ensures CoverOk(s'.c, s'.conns, s'.h)
  {
    if !s.h.gapped && !s.conns[k].cut {
      var up, q := s.conns[k].up, s.c.queued;
      FramesJoined(up, q, s.c.minted, s.h.calls);
      UpExtended(up, q, s.c.minted, Done(s), s.h.abandoned);
      UpPrefix(up + q, |up| + |part|, Done(s), s.h.abandoned);
      assert (up + q)[..|up| + |part|] == up + part;
    }
  }

  // --- giving up --------------------------------------------------------------------

  lemma AbandonKeeps(s: State, s': State, call: nat)
    requires Inv(s) && s.mode == Reconnecting(call) && s' == AbandonCall(s, call)
    requires NearBack(s)
    ensures Inv(s')
  {
    AbandonKeepsHeld(s.c, call);
    AbandonUnacked(s, call);
    AbandonClient(s, s', call);
    AbandonCover(s, s', call);
  }

  lemma AbandonUnacked(s: State, call: nat)
    requires ModeOk(s.c, s.mode, s.h.calls, |s.conns|) && ClientOk(s.c, call, s.h.calls)
    requires s.mode == Reconnecting(call) && NearBack(s)
    ensures var u := Abandon(s.c, call).unacked;
            && FramesOk(u, s.c.minted, s.h.calls) && OnlyCall(u, 0)
            && forall i :: 0 <= i < |s.c.unacked| && s.c.unacked[i].place != call ==> s.c.unacked[i] in u
  {
    var u := s.c.unacked;
    if u != [] {
      var last := |u| - 1;
      assert Minted(u[last], s.c.minted, s.h.calls);
      OrderInWindow(u[last].place, call);
      FramesPart(u, s.c.minted, s.h.calls, 0, last);
      assert u[0..last] == u[..last];
      forall i | 0 <= i < |u| && !u[i].noReply ensures i == last {
        assert u[i].place == call;
      }
    }
  }

  lemma AbandonClient(s: State, s': State, call: nat)
    requires ModeOk(s.c, s.mode, s.h.calls, |s.conns|) && ClientOk(s.c, call, s.h.calls)
    requires s.mode == Reconnecting(call) && s' == AbandonCall(s, call)
    requires SessionOk(s.c, s.mode, s.conns, s.sess, s.h)
    requires FramesOk(s'.c.unacked, s.c.minted, s.h.calls) && OnlyCall(s'.c.unacked, 0)
    ensures ModeOk(s'.c, s'.mode, s'.h.calls, |s'.conns|) && ClientOk(s'.c, 0, s'.h.calls)
    ensures SessionOk(s'.c, s'.mode, s'.conns, s'.sess, s'.h)
  {
  }

  lemma AbandonCover(s: State, s': State, call: nat)
    requires Indexed(s) && CoverOk(s.c, s.conns, s.h) && s' == AbandonCall(s, call)
    requires forall i :: 0 <= i < |s.c.unacked| && s.c.unacked[i].place != call ==> s.c.unacked[i] in s'.c.unacked
    ensures CoverOk(s'.c, s'.conns, s'.h)
  {
    if !s.h.gapped {
      var done, ab, ab' := Done(s), s.h.abandoned, s'.h.abandoned;
      forall k | 0 <= k < |s.conns| ensures UpCovered(s.conns[k].up, done, ab') {
        UpStays(s.conns[k].up, done, ab, done, ab');
      }
      if s.c.replayPossible && !s.c.sessionGone {
        CoverStays(s.c.unacked, s.c.minted, done, ab, done, ab');
        CoveredBy(s.c.unacked, s'.c.unacked, s.c.minted, done, ab');
      }
    }
  }

  /** Only whether the last attempt to connect failed changes. */
  lemma MarkKeeps(s: State, s': State, failed: bool)
    requires Inv(s) && s' == s.(c := s.c.(connectFailed := failed))
    requires failed || (s.c.hadSession && !s.c.sessionGone)
    ensures Inv(s')
  {
  }

  lemma OpenKeeps(s: State, s': State)
    requires Inv(s) && CanConnect(s)
    requires s' == s.(c := s.c.(connectFailed := false), mode := Shaking(|s.conns|, ForCall(s.mode)),
                      conns := s.conns + [Conn(s.c.hadSession, s.c.lastReply, Unread, [], [], false, [])])
    ensures Inv(s')
  {
    OpenSession(s, s');
  }

  lemma OpenSession(s: State, s': State)
    requires SessionOk(s.c, s.mode, s.conns, s.sess, s.h) && CanConnect(s) && ClientOk(s.c, ForCall(s.mode), s.h.calls)
    requires ModeOk(s.c, s.mode, s.h.calls, |s.conns|)
    requires s' == s.(c := s.c.(connectFailed := false), mode := Shaking(|s.conns|, ForCall(s.mode)),
                      conns := s.conns + [Conn(s.c.hadSession, s.c.lastReply, Unread, [], [], false, [])])
    ensures SessionOk(s'.c, s'.mode, s'.conns, s'.sess, s'.h)
  {
  }

  lemma HandshakeFailsKeeps(s: State, s': State)
    requires Inv(s) && s.mode.Shaking? && s' == HandshakeFailed(s, s.mode.k, s.mode.forCall)
    ensures Inv(s')
  {
    HandshakeFailsRest(s, s');
  }

  lemma HandshakeFailsRest(s: State, s': State)
    requires Indexed(s) && s.mode.Shaking? && s' == HandshakeFailed(s, s.mode.k, s.mode.forCall)
    requires SessionOk(s.c, s.mode, s.conns, s.sess, s.h) && ConnsOk(s.c, s.conns, s.h, s.sess.lastReq)
    requires CoverOk(s.c, s.conns, s.h) && ModeOk(s.c, s.mode, s.h.calls, |s.conns|)
    ensures SessionOk(s'.c, s'.mode, s'.conns, s'.sess, s'.h) && ConnsOk(s'.c, s'.conns, s'.h, s'.sess.lastReq)
    ensures CoverOk(s'.c, s'.conns, s'.h)
  {
  }
}
