/** The steps of the accept threads and of the network keep the invariant. */
module AcceptSteps {
  import opened Wrappers
  import opened ReqIds
  import opened Wire
  import opened ClientState
  import opened Protocol
  import opened ProtocolInvariant
  import opened Coverage
  import opened ServingSteps

  ghost predicate LookedUp(s: State, s': State, k: nat, full: bool) {
    Indexed(s) && k < |s.conns| && s.conns[k].accept.Unread? && s' == ApplyLookup(s, k, full)
  }

  /** The connection is found a session, or told why not and closed. */
  ghost predicate LookupOutcome(c: Conn, c': Conn) {
    || (c'.accept.Found? && c' == c.(accept := c'.accept))
    || c' == Shut(WriteDown(c, Busy)) || c' == Shut(WriteDown(c, Hello(false, 0)))
  }

  lemma LookupKeeps(s: State, s': State, k: nat, full: bool)
    requires Inv(s) && LookedUp(s, s', k, full)
    ensures Inv(s')
  {
    LookupSession(s, s', k, full);
    LookupRest(s, s', k);
    LookupConnKeeps(s, s', k);
  }

  lemma LookupConnKeeps(s: State, s': State, k: nat)
    requires Inv(s) && k < |s.conns| == |s'.conns| && s.conns[k].accept.Unread? && Indexed(s')
    requires s'.c == s.c && s'.mode == s.mode && s'.h == s.h.(sessions := s'.h.sessions)
    requires s'.sess.lastReq == s.sess.lastReq && s'.sess.thread == s.sess.thread
    requires s'.conns == s.conns[k := s'.conns[k]] && LookupOutcome(s.conns[k], s'.conns[k])
    requires SessionOk(s'.c, s'.mode, s'.conns, s'.sess, s'.h)
    requires ExecOk(s'.sess, s'.h, s'.c.minted) && CoverOk(s'.c, s'.conns, s'.h)
    ensures Inv(s')
  {
    hide HeldOk, ModeOk, ClientOk, CallHeld, SessionOk, ExecOk, CoverOk, PipeOk, ShakeOk;
    LookupConn(s.conns[k], s'.conns[k], s.c.minted, s.h.calls, s.h.executed, s.sess.lastReq);
    ConnsReplaced(s.c, s.conns, s.h, s.sess.lastReq, k, s'.conns[k], s'.h, s.sess.lastReq);
    LookupFlow(s.c, s.mode, s.conns, s.sess.thread, k, s'.conns[k]);
  }

  lemma LookupConn(c: Conn, c': Conn, minted: nat, calls: set<nat>, ex: seq<Exec>, lastReq: nat)
    requires ConnOk(c, minted, calls, ex, lastReq) && LookupOutcome(c, c') && c.accept.Unread?
    ensures ConnOk(c', minted, calls, ex, lastReq)
  {
  }

  /** Nothing the lookup changes is part of the record. */
  lemma LookupRest(s: State, s': State, k: nat)
    requires Indexed(s) && ExecOk(s.sess, s.h, s.c.minted) && CoverOk(s.c, s.conns, s.h)
    requires PipeOk(s.c, s.mode, s.conns, s.sess.thread)
    requires k < |s.conns| == |s'.conns| && s.conns[k].accept.Unread?
    requires s'.c == s.c && s'.mode == s.mode && s'.h == s.h.(sessions := s'.h.sessions)
    requires s'.sess == s.sess || (s.sess == NoSession && s'.sess == NewSession)
    requires s'.conns == s.conns[k := s'.conns[k]] && LookupOutcome(s.conns[k], s'.conns[k])
    ensures Indexed(s') && ExecOk(s'.sess, s'.h, s'.c.minted) && CoverOk(s'.c, s'.conns, s'.h)
    ensures s'.sess.lastReq == s.sess.lastReq && s'.sess.thread == s.sess.thread
  {
  }

  lemma LookupSession(s: State, s': State, k: nat, full: bool)
    requires SessionOk(s.c, s.mode, s.conns, s.sess, s.h) && LookedUp(s, s', k, full)
    ensures SessionOk(s'.c, s'.mode, s'.conns, s'.sess, s'.h)
    ensures s'.sess == s.sess || (s.sess == NoSession && s'.sess == NewSession)
    ensures LookupOutcome(s.conns[k], s'.conns[k])
  {
    assert HelloOk(s.conns[k], k, s.c.minted);
  }

  lemma LookupFlow(cl: Client, mode: Mode, conns: seq<Conn>, t: Thread, k: nat, c: Conn)
    requires cl.conn.Some? ==> cl.conn.value < |conns|
    requires mode.Shaking? ==> mode.k < |conns|
    requires PipeOk(cl, mode, conns, t) && ShakeOk(cl, mode, conns, t)
    requires k < |conns| && conns[k].accept.Unread?
    requires LookupOutcome(conns[k], c)
    ensures cl.conn != Some(k)
    ensures PipeOk(cl, mode, conns[k := c], t) && ShakeOk(cl, mode, conns[k := c], t)
  {
    if c.accept.Closed? && mode.Shaking? && mode.k == k {
      assert !HasCall(c.up);
      assert GreetingOk(c, k, mode.forCall, t);
    }
  }

  lemma SnapshotKeeps(s: State, s': State, k: nat)
    requires Inv(s) && k < |s.conns| && s.conns[k].accept.Found? && s' == ApplySnapshot(s, k)
    requires Near(s, s.sess.lastReplyId) && Near(s, s.conns[k].helloLast)
    ensures Inv(s')
  {
    assert HelloOk(s.conns[k], k, s.c.minted);
    OrderInWindow(s.sess.lastReplyId, s.conns[k].helloLast);
    ConnsReplaced(s.c, s.conns, s.h, s.sess.lastReq, k, s'.conns[k], s.h, s.sess.lastReq);
    SnapshotShake(s, s', k);
    SnapshotSession(s, s', k);
    SnapshotRest(s, s', k);
  }

  lemma SnapshotRest(s: State, s': State, k: nat)
    requires Indexed(s) && PipeOk(s.c, s.mode, s.conns, s.sess.thread) && CoverOk(s.c, s.conns, s.h)
    requires k < |s.conns| && s.conns[k].accept.Found? && s' == ApplySnapshot(s, k)
    ensures PipeOk(s'.c, s'.mode, s'.conns, s'.sess.thread) && CoverOk(s'.c, s'.conns, s'.h)
  {
  }

  lemma SnapshotSession(s: State, s': State, k: nat)
    requires Indexed(s) && SessionOk(s.c, s.mode, s.conns, s.sess, s.h)
    requires k < |s.conns| && s.conns[k].accept.Found? && s' == ApplySnapshot(s, k)
    ensures SessionOk(s'.c, s'.mode, s'.conns, s'.sess, s'.h)
  {
  }

  lemma SnapshotShake(s: State, s': State, k: nat)
    requires Inv(s) && k < |s.conns| && s.conns[k].accept.Found? && s' == ApplySnapshot(s, k)
    requires AtOrBefore(WireId(s.sess.lastReplyId), WireId(s.conns[k].helloLast))
             <==> s.sess.lastReplyId <= s.conns[k].helloLast
    ensures ShakeOk(s'.c, s'.mode, s'.conns, s'.sess.thread)
  {
    if s.mode.Shaking? && s.mode.k == k {
      assert HelloOk(s.conns[k], k, s.c.minted);
    }
  }

  lemma LoseKeeps(s: State, s': State, k: nat, u: nat, d: nat)
    requires Inv(s) && k < |s.conns| && u <= |s.conns[k].up| && d <= |s.conns[k].down|
    requires s' == SetConn(s, k, s.conns[k].(up := s.conns[k].up[..u], down := s.conns[k].down[..d], cut := true))
    ensures Inv(s')
  {
    var c := s'.conns[k];
    FramesPart(s.conns[k].up, s.c.minted, s.h.calls, 0, u);
    assert s.conns[k].up[0..u] == s.conns[k].up[..u];
    ConnsReplaced(s.c, s.conns, s.h, s.sess.lastReq, k, c, s.h, s.sess.lastReq);
    LoseRecords(s, s', k, u, d);
    LoseFlow(s, s', k, u, d);
  }

  lemma LoseRecords(s: State, s': State, k: nat, u: nat, d: nat)
    requires Indexed(s) && SessionOk(s.c, s.mode, s.conns, s.sess, s.h) && CoverOk(s.c, s.conns, s.h)
    requires k < |s.conns| && u <= |s.conns[k].up| && d <= |s.conns[k].down|
    requires s' == SetConn(s, k, s.conns[k].(up := s.conns[k].up[..u], down := s.conns[k].down[..d], cut := true))
    ensures SessionOk(s'.c, s'.mode, s'.conns, s'.sess, s'.h) && CoverOk(s'.c, s'.conns, s'.h)
  {
    if !s.h.gapped {
      UpPrefix(s.conns[k].up, u, Done(s), s.h.abandoned);
    }
  }

  lemma LoseFlow(s: State, s': State, k: nat, u: nat, d: nat)
    requires Indexed(s) && PipeOk(s.c, s.mode, s.conns, s.sess.thread) && ShakeOk(s.c, s.mode, s.conns, s.sess.thread)
    requires k < |s.conns| && u <= |s.conns[k].up| && d <= |s.conns[k].down|
    requires s' == SetConn(s, k, s.conns[k].(up := s.conns[k].up[..u], down := s.conns[k].down[..d], cut := true))
    ensures PipeOk(s'.c, s'.mode, s'.conns, s'.sess.thread) && ShakeOk(s'.c, s'.mode, s'.conns, s'.sess.thread)
  {
    if s.mode.Shaking? && s.mode.k == k {
      LoseGreeting(s.conns[k], s'.conns[k], k, s.mode.forCall, s.sess.thread, d);
    }
  }

  lemma LoseGreeting(c: Conn, c': Conn, k: nat, call: nat, t: Thread, d: nat)
    requires d <= |c.down| && c' == c.(down := c.down[..d], cut := true) && c.up == []
    ensures GreetingOk(c, k, call, t) ==> GreetingOk(c', k, call, t)
  {
    if d > 0 {
      assert c'.down[1..] == c.down[1..][..d - 1];
    }
  }

  lemma GreetOkKeeps(s: State, s': State, k: nat)
    requires Inv(s) && Indexed(s) && k < |s.conns| && s.conns[k].accept.Snapped? && s' == ApplyGreet(s, k, true)
    ensures Inv(s')
  {
    hide HeldOk, ModeOk, ClientOk, CallHeld, SessionOk, ExecOk, CoverOk, PipeOk, ShakeOk;
    ConnsReplaced(s.c, s.conns, s.h, s.sess.lastReq, k, s'.conns[k], s.h, s.sess.lastReq);
    GreetSession(s, s', k);
    GreetPipe(s, s', k);
    GreetShake(s, s', k);
  }

  lemma GreetSession(s: State, s': State, k: nat)
    requires Indexed(s) && SessionOk(s.c, s.mode, s.conns, s.sess, s.h) && CoverOk(s.c, s.conns, s.h)
    requires Indexed(s) && k < |s.conns| && s.conns[k].accept.Snapped? && s' == ApplyGreet(s, k, true)
    ensures SessionOk(s'.c, s'.mode, s'.conns, s'.sess, s'.h) && CoverOk(s'.c, s'.conns, s'.h)
  {
    assert HelloOk(s.conns[k], k, s.c.minted);
  }

  /** The client reads no replies on a connection that has not been greeted. */
  lemma GreetPipe(s: State, s': State, k: nat)
    requires Indexed(s) && PipeOk(s.c, s.mode, s.conns, s.sess.thread)
    requires k < |s.conns| && s.conns[k].accept.Snapped? && s' == ApplyGreet(s, k, true)
    ensures PipeOk(s'.c, s'.mode, s'.conns, s'.sess.thread)
  {
    hide AllAnswer, RepliesAnswer, OnlyCall, HasCall;
  }

  lemma GreetShake(s: State, s': State, k: nat)
    requires Inv(s) && k < |s.conns| && s.conns[k].accept.Snapped? && s' == ApplyGreet(s, k, true)
    ensures ShakeOk(s'.c, s'.mode, s'.conns, s'.sess.thread)
  {
    hide PipeOk, CoverOk, HeldOk, CallHeld, ExecOk;
    if s.mode.Shaking? && s.mode.k == k {
      assert HelloOk(s.conns[k], k, s.c.minted);
    }
  }

  lemma GreetFailsKeeps(s: State, s': State, k: nat)
    requires Inv(s) && Indexed(s) && k < |s.conns| && s.conns[k].accept.Snapped? && s' == ApplyGreet(s, k, false)
    ensures Inv(s')
  {
    assert HelloOk(s.conns[k], k, s.c.minted);
    if s.conns[k].accept.resumed {
      ShutKeeps(s, s', k);
    } else {
      var t := ShutPending(s);
      if s.sess.pending.Some? {
        ShutKeeps(s, t, s.sess.pending.value);
      }
      var u := SetConn(t, k, Shut(t.conns[k]));
      ShutKeeps(t, u, k);
      Unserved(u, s', k);
    }
  }

  lemma Unserved(s: State, s': State, k: nat)
    requires Inv(s) && s.sess.thread.Unstarted?
    requires s.h.sessions == 1
    requires s' == s.(sess := s.sess.(listed := false, finished := true, pending := None))
    ensures Inv(s')
  {
  }

  lemma SendUnansweredKeeps(s: State, s': State, k: nat)
    requires Inv(s) && k < |s.conns| && s.conns[k].accept.Greeted? && s.conns[k].accept.unanswered != []
    requires var c := s.conns[k];
         s' == SetConn(s, k, WriteDown(c, Response(c.accept.unanswered[0]))
                      .(accept := Greeted(c.accept.unanswered[1..], c.accept.isNew)))
    ensures Inv(s')
  {
    ConnsReplaced(s.c, s.conns, s.h, s.sess.lastReq, k, s'.conns[k], s.h, s.sess.lastReq);
    SendUnansweredSession(s, s', k);
    SendUnansweredPipe(s, s', k);
    SendUnansweredShake(s, s', k);
  }

  lemma SendUnansweredSession(s: State, s': State, k: nat)
    requires Indexed(s) && SessionOk(s.c, s.mode, s.conns, s.sess, s.h) && CoverOk(s.c, s.conns, s.h)
    requires k < |s.conns| && s.conns[k].accept.Greeted? && s.conns[k].accept.unanswered != []
    requires var c := s.conns[k];
         s' == SetConn(s, k, WriteDown(c, Response(c.accept.unanswered[0]))
                      .(accept := Greeted(c.accept.unanswered[1..], c.accept.isNew)))
    ensures SessionOk(s'.c, s'.mode, s'.conns, s'.sess, s'.h) && CoverOk(s'.c, s'.conns, s'.h)
  {
  }

  lemma SendUnansweredPipe(s: State, s': State, k: nat)
    requires Indexed(s) && PipeOk(s.c, s.mode, s.conns, s.sess.thread)
    requires k < |s.conns| && s.conns[k].accept.Greeted? && s.conns[k].accept.unanswered != []
    requires var c := s.conns[k];
         s' == SetConn(s, k, WriteDown(c, Response(c.accept.unanswered[0]))
                      .(accept := Greeted(c.accept.unanswered[1..], c.accept.isNew)))
    ensures PipeOk(s'.c, s'.mode, s'.conns, s'.sess.thread)
  {
  }

  lemma SendUnansweredShake(s: State, s': State, k: nat)
    requires Indexed(s) && ShakeOk(s.c, s.mode, s.conns, s.sess.thread)
    requires k < |s.conns| && s.conns[k].accept.Greeted? && s.conns[k].accept.unanswered != []
    requires var c := s.conns[k];
         s' == SetConn(s, k, WriteDown(c, Response(c.accept.unanswered[0]))
                      .(accept := Greeted(c.accept.unanswered[1..], c.accept.isNew)))
    ensures ShakeOk(s'.c, s'.mode, s'.conns, s'.sess.thread)
  {
    var d := s.conns[k].down;
    if d != [] && !s.conns[k].cut {
      assert s'.conns[k].down[1..] == d[1..] + [Response(s.conns[k].accept.unanswered[0])];
    }
  }

  lemma HandOverFacts(s: State, k: nat)
    requires Inv(s) && k < |s.conns| && s.conns[k].accept.Greeted?
    ensures Indexed(s) && s.h.sessions == 1
    ensures s.conns[k].accept.isNew ==> k == 0 && s.sess.thread.Unstarted?
  {
    assert HelloOk(s.conns[k], k, s.c.minted);
  }

  lemma HandOverKeeps(s: State, s': State, k: nat)
    requires Inv(s) && k < |s.conns| && s.conns[k].accept.Greeted? && s.conns[k].accept.unanswered == []
    requires s' == ApplyHandOver(s, k)
    ensures Inv(s')
  {
    HandOverFacts(s, k);
    hide Inv;
    if !s.conns[k].accept.isNew && s.sess.finished {
      ShutKeeps(s, s', k);
    } else {
      var t := ShutPending(s);
      if s.sess.pending.Some? {
        ShutKeeps(s, t, s.sess.pending.value);
      }
      HandedKeeps(t, s', k, s.conns[k].accept.isNew);
    }
  }

  lemma HandedKeeps(s: State, s': State, k: nat, isNew: bool)
    requires Inv(s) && k < |s.conns| && s.h.sessions == 1
    requires s.conns[k].accept.Closed? || (s.conns[k].accept.Greeted? && s.conns[k].accept.unanswered == [])
    requires isNew ==> k == 0 && s.sess.thread.Unstarted?
    requires s' == SetConn(s, k, s.conns[k].(accept := Handed))
                   .(sess := s.sess.(pending := Some(k), thread := if isNew then Looking else s.sess.thread))
    ensures Inv(s')
  {
    ConnsReplaced(s.c, s.conns, s.h, s.sess.lastReq, k, s'.conns[k], s.h, s.sess.lastReq);
    HandedFlow(s.c, s.mode, s.conns, s.sess.thread, k, s'.sess.thread);
    HandedSession(s, s', k, isNew);
    HandedRest(s, s', k, isNew);
  }

  lemma HandedRest(s: State, s': State, k: nat, isNew: bool)
    requires Indexed(s) && ExecOk(s.sess, s.h, s.c.minted) && CoverOk(s.c, s.conns, s.h) && k < |s.conns|
    requires isNew ==> s.sess.thread.Unstarted?
    requires s' == SetConn(s, k, s.conns[k].(accept := Handed))
                   .(sess := s.sess.(pending := Some(k), thread := if isNew then Looking else s.sess.thread))
    ensures Indexed(s') && ExecOk(s'.sess, s'.h, s'.c.minted) && CoverOk(s'.c, s'.conns, s'.h)
  {
  }

  lemma HandedSession(s: State, s': State, k: nat, isNew: bool)
    requires SessionOk(s.c, s.mode, s.conns, s.sess, s.h) && k < |s.conns| && s.h.sessions == 1
    requires !s.conns[k].accept.Unread?
    requires s' == SetConn(s, k, s.conns[k].(accept := Handed))
                   .(sess := s.sess.(pending := Some(k), thread := if isNew then Looking else s.sess.thread))
    requires isNew ==> k == 0
    ensures SessionOk(s'.c, s'.mode, s'.conns, s'.sess, s'.h)
  {
  }

  lemma HandedFlow(cl: Client, mode: Mode, conns: seq<Conn>, t: Thread, k: nat, t': Thread)
    requires cl.conn.Some? ==> cl.conn.value < |conns|
    requires mode.Shaking? ==> mode.k < |conns|
    requires PipeOk(cl, mode, conns, t) && ShakeOk(cl, mode, conns, t)
    requires k < |conns| && (t' == t || (t.Unstarted? && t'.Looking?))
    requires conns[k].accept.Closed? || (conns[k].accept.Greeted? && conns[k].accept.unanswered == [])
    ensures PipeOk(cl, mode, conns[k := conns[k].(accept := Handed)], t')
    ensures ShakeOk(cl, mode, conns[k := conns[k].(accept := Handed)], t')
  {
    HandedShake(cl, mode, conns, t, k, t');
    hide ShakeOk, HasCall;
  }

  lemma HandedShake(cl: Client, mode: Mode, conns: seq<Conn>, t: Thread, k: nat, t': Thread)
    requires mode.Shaking? ==> mode.k < |conns|
    requires ShakeOk(cl, mode, conns, t) && k < |conns| && (t' == t || (t.Unstarted? && t'.Looking?))
    requires conns[k].accept.Closed? || (conns[k].accept.Greeted? && conns[k].accept.unanswered == [])
    ensures ShakeOk(cl, mode, conns[k := conns[k].(accept := Handed)], t')
  {
    hide HasCall;
    var c := conns[k].(accept := Handed);
    if mode.Shaking? && mode.k == k {
      assert GreetingOk(conns[k], k, mode.forCall, t);
      assert GreetingOk(c, k, mode.forCall, t');
    }
  }
}
