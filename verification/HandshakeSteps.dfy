/** Replies and handshakes, as the client takes them, keep the invariant. */
module HandshakeSteps {
  import opened Wrappers
  import opened ReqIds
  import opened Wire
  import opened ClientState
  import opened Protocol
  import opened ProtocolInvariant
  import opened Coverage
  import opened ServingSteps

  /** Inside the window, what is forgotten is exactly what is at or before `upTo`. */
  lemma AckedExact(s: State, upTo: nat)
    requires FramesOk(s.c.unacked, s.c.minted, s.h.calls) && NearFrames(s, s.c.unacked)
    requires upTo <= s.c.minted && Near(s, upTo)
    ensures var k := AckedCount(s.c.unacked, upTo);
            Forgotten(s.c.unacked, k, upTo)
  {
    var u, k := s.c.unacked, AckedCount(s.c.unacked, upTo);
    forall i | 0 <= i < |u| ensures AtOrBefore(WireId(u[i].place), WireId(upTo)) <==> u[i].place <= upTo {
      assert Minted(u[i], s.c.minted, s.h.calls);
      OrderInWindow(u[i].place, upTo);
    }
  }

  // --- a reply arrives ------------------------------------------------------------------

  /** The only frame a waiting client can read is the reply to the call it waits on. */
  lemma ReplyIsForCall(s: State)
    requires Inv(s) && s.mode.Waiting? && s.conns[s.c.conn.value].down != []
    ensures var d := s.conns[s.c.conn.value].down[0];
            d.Response? && d.reply.place == s.mode.call && Ran(s.h.executed, d.reply)
  {
    var c := s.conns[s.c.conn.value];
    assert ConnOk(c, s.c.minted, s.h.calls, s.h.executed, s.sess.lastReq);
    assert DownOk(c.down[0], s.h.executed, s.sess.lastReq);
  }

  lemma ReceiveKeeps(s: State, s': State)
    requires Inv(s) && s.mode.Waiting? && s.conns[s.c.conn.value].down != [] && s' == ApplyReceive(s)
    requires NearFrames(s, s.c.unacked)
    ensures Inv(s')
  {
    ReplyIsForCall(s);
    var k := s.c.conn.value;
    assert s.c.unacked != [] ==> Near(s, s.mode.call);
    AckedExact(s, s.mode.call);
    assert AckedCount(s.c.unacked, s.mode.call) == |s.c.unacked| by { AckedAll(s); }
    var reply := s.conns[k].down[0].reply;
    Received(s, s', k, reply);
  }

  lemma AckedAll(s: State)
    requires Inv(s) && s.mode.Waiting?
    requires forall i :: AckedCount(s.c.unacked, s.mode.call) <= i < |s.c.unacked| ==>
               s.mode.call < s.c.unacked[i].place
    ensures AckedCount(s.c.unacked, s.mode.call) == |s.c.unacked|
  {
    var k := AckedCount(s.c.unacked, s.mode.call);
    assert forall i :: 0 <= i < |s.c.unacked| ==> Minted(s.c.unacked[i], s.c.minted, s.h.calls);
  }

  lemma Received(s: State, s': State, k: nat, reply: Reply)
    requires Inv(s) && s.mode.Waiting? && s.c.conn == Some(k)
    requires s.conns[k].down != [] && s.conns[k].down[0] == Response(reply)
    requires reply.place == s.mode.call && Ran(s.h.executed, reply)
    requires s' == SetConn(s, k, s.conns[k].(down := s.conns[k].down[1..]))
                   .(c := s.c.(lastReply := s.mode.call, unacked := [], unackedBytes := 0),
                     mode := Idle, h := s.h.(received := s.h.received + [reply]))
    ensures Inv(s')
  {
    ReceivedPipe(s, s', k);
    ReceivedCover(s, s', k, reply);
    ReceivedRest(s, s', k, reply);
  }

  lemma ReceivedPipe(s: State, s': State, k: nat)
    requires Indexed(s) && PipeOk(s.c, s.mode, s.conns, s.sess.thread) && s.c.conn == Some(k) && s.conns[k].down != []
    requires s'.c.conn == s.c.conn && s'.c.queued == s.c.queued && s'.mode.Idle? && s'.sess.thread == s.sess.thread
    requires s'.conns == s.conns[k := s.conns[k].(down := s.conns[k].down[1..])]
    ensures PipeOk(s'.c, s'.mode, s'.conns, s'.sess.thread)
  {
  }

  lemma ReceivedCover(s: State, s': State, k: nat, reply: Reply)
    requires Indexed(s) && CoverOk(s.c, s.conns, s.h) && s.c.conn == Some(k) && s.c.minted == reply.place
    requires ExecOk(s.sess, s.h, s.c.minted) && Ran(s.h.executed, reply)
    requires s'.c.conn == s.c.conn && s'.c.queued == s.c.queued && s'.c.minted == s.c.minted
    requires |s'.conns| == |s.conns| && s'.conns == s.conns[k := s.conns[k].(down := s'.conns[k].down)]
    requires s'.h == s.h.(received := s'.h.received)
    ensures CoverOk(s'.c, s'.conns, s'.h)
  {
    var e := Exec(reply.place, reply.result, 1);
    var i :| 0 <= i < |s.h.executed| && s.h.executed[i] == e;
    assert reply.place <= Done(s);
  }

  lemma ReceivedRest(s: State, s': State, k: nat, reply: Reply)
    requires Inv(s) && s.mode.Waiting? && s.c.conn == Some(k)
    requires s.conns[k].down != [] && s.conns[k].down[0] == Response(reply)
    requires reply.place == s.mode.call && Ran(s.h.executed, reply)
    requires s' == SetConn(s, k, s.conns[k].(down := s.conns[k].down[1..]))
                   .(c := s.c.(lastReply := s.mode.call, unacked := [], unackedBytes := 0),
                     mode := Idle, h := s.h.(received := s.h.received + [reply]))
    ensures HeldOk(s'.c) && ModeOk(s'.c, s'.mode, s'.h.calls, |s'.conns|) && ClientOk(s'.c, 0, s'.h.calls)
    ensures SessionOk(s'.c, s'.mode, s'.conns, s'.sess, s'.h) && ExecOk(s'.sess, s'.h, s'.c.minted)
    ensures ConnsOk(s'.c, s'.conns, s'.h, s'.sess.lastReq)
  {
    hide HeldOk, ClientOk, CallHeld, SessionOk, ExecOk, ConnsOk, CoverOk, PipeOk, ShakeOk;
    ReceivedConns(s.c, s'.c, s.conns, s.h, s'.h, s.sess.lastReq, k);
    ReceivedClient(s, s');
    ReceivedSession(s, s', k);
    ReceivedExec(s, s', reply);
  }

  lemma ReceivedClient(s: State, s': State)
    requires s.mode.Waiting? && ModeOk(s.c, s.mode, s.h.calls, |s.conns|)
    requires HeldOk(s.c) && ClientOk(s.c, s.mode.call, s.h.calls)
    requires s'.mode == Idle && s'.h.calls == s.h.calls && |s'.conns| == |s.conns|
    requires s'.c == s.c.(lastReply := s.mode.call, unacked := [], unackedBytes := 0)
    ensures HeldOk(s'.c) && ModeOk(s'.c, s'.mode, s'.h.calls, |s'.conns|) && ClientOk(s'.c, 0, s'.h.calls)
  {
  }

  lemma ReceivedSession(s: State, s': State, k: nat)
    requires SessionOk(s.c, s.mode, s.conns, s.sess, s.h) && s.mode.Waiting? && k < |s.conns| && s.conns[k].down != []
    requires s'.mode == Idle && s'.sess == s.sess && s'.h == s.h.(received := s'.h.received)
    requires s'.c == s.c.(lastReply := s.mode.call, unacked := [], unackedBytes := 0)
    requires s'.conns == s.conns[k := s.conns[k].(down := s.conns[k].down[1..])]
    ensures SessionOk(s'.c, s'.mode, s'.conns, s'.sess, s'.h)
  {
  }

  lemma ReceivedExec(s: State, s': State, reply: Reply)
    requires ExecOk(s.sess, s.h, s.c.minted) && Ran(s.h.executed, reply)
    requires s'.sess == s.sess && s'.c.minted == s.c.minted
    requires s'.h == s.h.(received := s.h.received + [reply])
    ensures ExecOk(s'.sess, s'.h, s'.c.minted)
  {
  }

  lemma ReceivedConns(cl: Client, cl': Client, conns: seq<Conn>, h: History, h': History, lastReq: nat, k: nat)
    requires cl.conn == Some(k) == cl'.conn && k < |conns| && cl'.minted == cl.minted && cl'.queued == cl.queued
    requires ConnsOk(cl, conns, h, lastReq) && conns[k].down != []
    requires h'.calls == h.calls && h'.executed == h.executed
    ensures ConnsOk(cl', conns[k := conns[k].(down := conns[k].down[1..])], h', lastReq)
  {
    assert ConnOk(conns[k], cl.minted, h.calls, h.executed, lastReq);
    ConnsReplaced(cl, conns, h, lastReq, k, conns[k].(down := conns[k].down[1..]), h', lastReq);
  }

  // --- the handshake is answered ---------------------------------------------------------

  lemma RelabelKeeps(s: State, s': State)
    requires Inv(s) && s.mode.Waiting? && s' == s.(mode := Flushing(s.mode.call, 1))
    ensures Inv(s')
  {
  }

  lemma GoneKeeps(s: State, s': State, k: nat, call: nat)
    requires Inv(s) && s.mode == Shaking(k, call) && s.c.hadSession && s.conns[k].down != []
    requires s'.mode == Idle && s'.sess == s.sess
    requires s'.c == LoseSession(s.c).(conn := None, lastReply := if call == 0 then s.c.lastReply else call)
    requires s'.h == s.h.(abandoned := s.h.abandoned + if call == 0 then {} else {call})
    requires s'.conns == s.conns[k := s.conns[k].(down := s.conns[k].down[1..], cut := true)]
    ensures Inv(s')
  {
    GoneConns(s.c, s'.c, s.conns, s.h, s'.h, s.sess.lastReq, k, s'.conns[k]);
    GoneCover(s, s', k);
    GoneRest(s, s', k, call);
    assert ExecOk(s'.sess, s'.h, s'.c.minted);
  }

  lemma GoneConns(cl: Client, cl': Client, conns: seq<Conn>, h: History, h': History, lastReq: nat, k: nat, c: Conn)
    requires cl.conn.None? && cl'.conn.None? && cl'.minted == cl.minted
    requires ConnsOk(cl, conns, h, lastReq) && k < |conns| && conns[k].down != []
    requires h'.calls == h.calls && h'.executed == h.executed
    requires c == conns[k].(down := conns[k].down[1..], cut := true)
    ensures ConnsOk(cl', conns[k := c], h', lastReq)
  {
    ConnsReplaced(cl, conns, h, lastReq, k, c, h', lastReq);
  }

  lemma GoneCover(s: State, s': State, k: nat)
    requires Indexed(s) && CoverOk(s.c, s.conns, s.h) && k < |s.conns| && s.conns[k].down != []
    requires s'.c.sessionGone && s'.c.conn.None?
    requires s'.h == s.h.(abandoned := s'.h.abandoned) && s.h.abandoned <= s'.h.abandoned
    requires s'.conns == s.conns[k := s.conns[k].(down := s.conns[k].down[1..], cut := true)]
    ensures CoverOk(s'.c, s'.conns, s'.h)
  {
    if !s.h.gapped {
      forall i | 0 <= i < |s.conns| ensures UpCovered(s.conns[i].up, Done(s), s'.h.abandoned) {
        UpStays(s.conns[i].up, Done(s), s.h.abandoned, Done(s), s'.h.abandoned);
      }
    }
  }

  lemma GoneRest(s: State, s': State, k: nat, call: nat)
    requires Indexed(s) && ModeOk(s.c, s.mode, s.h.calls, |s.conns|) && ClientOk(s.c, call, s.h.calls)
    requires SessionOk(s.c, s.mode, s.conns, s.sess, s.h)
    requires s.mode == Shaking(k, call) && s.c.hadSession && s.conns[k].down != []
    requires s'.mode == Idle && s'.sess == s.sess
    requires s'.c == LoseSession(s.c).(conn := None, lastReply := if call == 0 then s.c.lastReply else call)
    requires s'.h == s.h.(abandoned := s'.h.abandoned)
    requires s'.conns == s.conns[k := s.conns[k].(down := s.conns[k].down[1..], cut := true)]
    ensures HeldOk(s'.c) && ModeOk(s'.c, s'.mode, s'.h.calls, |s'.conns|) && ClientOk(s'.c, 0, s'.h.calls)
    ensures SessionOk(s'.c, s'.mode, s'.conns, s'.sess, s'.h)
  {
  }

  lemma StartedKeeps(s: State, s': State, k: nat)
    requires Inv(s) && s.mode == Shaking(k, 0) && !s.c.hadSession && s.conns[k].down != []
    requires s.conns[k].down[0].Hello? && !s.conns[k].down[0].resumed
    requires s' == SetConn(s, k, s.conns[k].(down := s.conns[k].down[1..]))
                   .(c := s.c.(conn := Some(k), hadSession := true), mode := Idle)
    ensures Inv(s')
  {
    ConnsReplaced(s.c, s.conns, s.h, s.sess.lastReq, k, s'.conns[k], s.h, s.sess.lastReq);
    StartedFlow(s, s', k);
  }

  lemma StartedFlow(s: State, s': State, k: nat)
    requires Indexed(s) && s.mode == Shaking(k, 0) && k == 0 && s.conns[k].down != []
    requires ShakeOk(s.c, s.mode, s.conns, s.sess.thread) && !HasCall(s.c.queued)
    requires s.conns[k].down[0].Hello? && !s.conns[k].down[0].resumed
    requires s' == SetConn(s, k, s.conns[k].(down := s.conns[k].down[1..]))
                   .(c := s.c.(conn := Some(k), hadSession := true), mode := Idle)
    ensures PipeOk(s'.c, s'.mode, s'.conns, s'.sess.thread)
  {
  }

  /** The session is there; what it has not completed is queued to be sent again. */
  ghost predicate Resumed(s: State, t: State, k: nat, call: nat) {
    && Indexed(s) && s.mode == Shaking(k, call) && s.conns[k].down != []
    && s.conns[k].down[0].Hello? && s.conns[k].down[0].resumed
    && var c := Attach(s.c, k, true, s.conns[k].down[0].lastReq);
       t == SetConn(s, k, s.conns[k].(down := s.conns[k].down[1..]))
            .(c := c.(queued := c.unacked), mode := if call == 0 then Idle else Flushing(call, 0),
              h := s.h.(gapped := s.h.gapped || !s.c.replayPossible))
  }

  ghost predicate Forgotten(u: seq<Frame>, n: nat, last: nat) {
    && n <= |u|
    && (forall i :: 0 <= i < n ==> u[i].place <= last)
    && (forall i :: n <= i < |u| ==> last < u[i].place)
  }

  lemma ResumeKeeps(s: State, t: State, k: nat, call: nat)
    requires Inv(s) && Resumed(s, t, k, call)
    requires NearFrames(s, s.c.unacked) && Near(s, s.conns[k].down[0].lastReq)
    ensures Inv(t)
  {
    ResumeFacts(s, k);
    hide HeldOk, ModeOk, ClientOk, CallHeld, SessionOk, ExecOk, ConnsOk, CoverOk, PipeOk, ShakeOk, Forgotten;
    ResumeHeld(s, t, k, call);
    ResumeClient(s, t, k, call);
    ResumeCover(s, t, k, call);
    ResumePipe(s, t, k, call);
    ResumeSession(s, t, k, call);
  }

  lemma ResumeFacts(s: State, k: nat)
    requires Inv(s) && s.mode.Shaking? && k == s.mode.k && s.conns[k].down != []
    requires s.conns[k].down[0].Hello? && s.conns[k].down[0].resumed
    requires NearFrames(s, s.c.unacked) && Near(s, s.conns[k].down[0].lastReq)
    ensures var last := s.conns[k].down[0].lastReq;
            && k > 0 && last <= s.sess.lastReq <= Done(s) && !s.c.sessionGone
            && s.conns[k].up == [] && s.c.conn.None?
            && Forgotten(s.c.unacked, AckedCount(s.c.unacked, last), last)
  {
    assert HelloOk(s.conns[k], k, s.c.minted);
    assert ConnOk(s.conns[k], s.c.minted, s.h.calls, s.h.executed, s.sess.lastReq);
    assert DownOk(s.conns[k].down[0], s.h.executed, s.sess.lastReq);
    AckedExact(s, s.conns[k].down[0].lastReq);
  }

  lemma ResumeHeld(s: State, t: State, k: nat, call: nat)
    requires Resumed(s, t, k, call) && HeldOk(s.c)
    ensures HeldOk(t.c)
  {
    ForgetKeepsHeld(s.c.(conn := Some(k), hadSession := true), s.conns[k].down[0].lastReq);
  }

  lemma ResumeClient(s: State, t: State, k: nat, call: nat)
    requires Resumed(s, t, k, call) && ModeOk(s.c, s.mode, s.h.calls, |s.conns|)
    requires ClientOk(s.c, call, s.h.calls) && CallHeld(s.c, call, s.sess.lastReq)
    requires var last := s.conns[k].down[0].lastReq;
             last <= s.sess.lastReq && Forgotten(s.c.unacked, AckedCount(s.c.unacked, last), last)
    ensures ModeOk(t.c, t.mode, t.h.calls, |t.conns|)
    ensures ClientOk(t.c, call, t.h.calls) && CallHeld(t.c, call, t.sess.lastReq)
  {
    var last := s.conns[k].down[0].lastReq;
    KeptFrames(s.c.unacked, AckedCount(s.c.unacked, last), last, s.c.minted, s.h.calls, call);
  }

  lemma KeptFrames(u: seq<Frame>, n: nat, last: nat, minted: nat, calls: set<nat>, call: nat)
    requires FramesOk(u, minted, calls) && Forgotten(u, n, last) && OnlyCall(u, call)
    ensures FramesOk(u[n..], minted, calls) && OnlyCall(u[n..], call)
    ensures Holds(u, call) && last < call ==> Holds(u[n..], call)
    ensures Holds(u, call) && last < call && call in calls ==> HasCall(u[n..])
  {
    FramesPart(u, minted, calls, n, |u|);
    assert u[n..|u|] == u[n..];
    if Holds(u, call) && last < call {
      var i :| 0 <= i < |u| && u[i].place == call;
      assert u[n..][i - n] == u[i];
      assert Minted(u[i], minted, calls);
    }
  }

  lemma ResumeSession(s: State, t: State, k: nat, call: nat)
    requires Resumed(s, t, k, call) && SessionOk(s.c, s.mode, s.conns, s.sess, s.h)
    requires ExecOk(s.sess, s.h, s.c.minted) && ConnsOk(s.c, s.conns, s.h, s.sess.lastReq) && k > 0
    requires s.conns[k].up == [] && s.c.conn.None?
    ensures SessionOk(t.c, t.mode, t.conns, t.sess, t.h)
    ensures ExecOk(t.sess, t.h, t.c.minted) && ConnsOk(t.c, t.conns, t.h, t.sess.lastReq)
  {
    hide AckedCount, TotalSize;
    ResumeConns(s, t, k, call);
    ResumeRecord(s, t, k, call);
    hide ConnsOk, ConnOk, SessionOk;
  }

  lemma ResumeConns(s: State, t: State, k: nat, call: nat)
    requires Resumed(s, t, k, call) && ConnsOk(s.c, s.conns, s.h, s.sess.lastReq)
    requires s.conns[k].up == [] && s.c.conn.None?
    ensures ConnsOk(t.c, t.conns, t.h, t.sess.lastReq)
  {
    hide AckedCount, TotalSize;
    assert ConnOk(s.conns[k], s.c.minted, s.h.calls, s.h.executed, s.sess.lastReq);
    ConnsReplaced(s.c, s.conns, s.h, s.sess.lastReq, k, t.conns[k], t.h, s.sess.lastReq);
    hide ConnOk;
  }

  lemma ResumeRecord(s: State, t: State, k: nat, call: nat)
    requires Resumed(s, t, k, call) && SessionOk(s.c, s.mode, s.conns, s.sess, s.h) && k > 0
    ensures SessionOk(t.c, t.mode, t.conns, t.sess, t.h)
  {
    hide AckedCount, TotalSize;
  }

  lemma ResumeCover(s: State, t: State, k: nat, call: nat)
    requires Resumed(s, t, k, call) && CoverOk(s.c, s.conns, s.h) && s.conns[k].up == [] && !s.c.sessionGone
    requires var last := s.conns[k].down[0].lastReq;
             last <= Done(s) && Forgotten(s.c.unacked, AckedCount(s.c.unacked, last), last)
    ensures CoverOk(t.c, t.conns, t.h)
  {
    if !t.h.gapped {
      CoveredBy(s.c.unacked, t.c.unacked, s.c.minted, Done(s), s.h.abandoned);
      assert [] + t.c.unacked == t.c.unacked;
    }
  }

  lemma ResumePipe(s: State, t: State, k: nat, call: nat)
    requires Resumed(s, t, k, call) && ShakeOk(s.c, s.mode, s.conns, s.sess.thread)
    requires ModeOk(s.c, s.mode, s.h.calls, |s.conns|) && ClientOk(s.c, call, s.h.calls)
    requires var last := s.conns[k].down[0].lastReq;
             last <= s.sess.lastReq && Forgotten(s.c.unacked, AckedCount(s.c.unacked, last), last)
    ensures PipeOk(t.c, t.mode, t.conns, t.sess.thread)
  {
    var last := s.conns[k].down[0].lastReq;
    KeptFrames(s.c.unacked, AckedCount(s.c.unacked, last), last, s.c.minted, s.h.calls, call);
    assert GreetingOk(s.conns[k], k, call, s.sess.thread);
    assert !HasCall(s.conns[k].up);
    if call == 0 || last >= call {
      assert !HasCall(t.c.queued);
    }
  }
}
