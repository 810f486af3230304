/** The serving thread's steps keep the invariant. */
module ServingSteps {
  import opened Wrappers
  import opened ReqIds
  import opened Wire
  import opened ClientState
  import opened Protocol
  import opened ProtocolInvariant
  import opened Coverage

  ghost predicate Grown(ex: seq<Exec>, ex': seq<Exec>) {
    |ex| <= |ex'| && ex'[..|ex|] == ex
  }

  lemma RanStays(c: Conn, minted: nat, calls: set<nat>, ex: seq<Exec>, ex': seq<Exec>, lastReq: nat, lastReq': nat)
    requires ConnOk(c, minted, calls, ex, lastReq) && Grown(ex, ex') && lastReq <= lastReq'
    ensures ConnOk(c, minted, calls, ex', lastReq')
  {
    assert forall e :: e in ex ==> e in ex'[..|ex|];
    forall i | 0 <= i < |c.down| ensures DownOk(c.down[i], ex', lastReq') {
      assert DownOk(c.down[i], ex, lastReq);
    }
    forall i | 0 <= i < |Unanswered(c.accept)| ensures Ran(ex', Unanswered(c.accept)[i]) {
      assert Ran(ex, Unanswered(c.accept)[i]);
    }
  }

  /** One connection changes, and the server may have got further. */
  lemma ConnsReplaced(cl: Client, conns: seq<Conn>, h: History, lastReq: nat,
                      k: nat, c: Conn, h': History, lastReq': nat)
    requires cl.conn.Some? ==> cl.conn.value < |conns|
    requires ConnsOk(cl, conns, h, lastReq) && k < |conns|
    requires h'.calls == h.calls && Grown(h.executed, h'.executed) && lastReq <= lastReq'
    requires ConnOk(c, cl.minted, h.calls, h'.executed, lastReq')
    requires cl.conn == Some(k) ==> Before(c.up, cl.queued)
    ensures ConnsOk(cl, conns[k := c], h', lastReq')
  {
    var after := conns[k := c];
    forall i | 0 <= i < |after| ensures ConnOk(after[i], cl.minted, h.calls, h'.executed, lastReq') {
      if i != k {
        RanStays(conns[i], cl.minted, h.calls, h.executed, h'.executed, lastReq, lastReq');
      }
    }
  }

  lemma FramesPart(fs: seq<Frame>, minted: nat, calls: set<nat>, lo: nat, hi: nat)
    requires FramesOk(fs, minted, calls) && lo <= hi <= |fs|
    ensures FramesOk(fs[lo..hi], minted, calls)
  {
    var p := fs[lo..hi];
    forall i | 0 <= i < |p| ensures Minted(p[i], minted, calls) {
      assert Minted(fs[lo + i], minted, calls);
    }
  }

  // --- the serving thread -----------------------------------------------------------

  lemma TakeKeeps(s: State, s': State)
    requires Inv(s) && s.sess.thread.Looking? && s.sess.pending.Some?
    requires s' == s.(sess := s.sess.(thread := Serving(s.sess.pending.value), pending := None))
    ensures Inv(s')
  {
  }

  lemma ExpireKeeps(s: State, s': State)
    requires Inv(s) && s.sess.thread.Looking? && s.sess.pending.None?
    requires s' == s.(sess := s.sess.(finished := true, thread := Ended))
    ensures Inv(s')
  {
  }

  lemma EraseKeeps(s: State, s': State)
    requires Inv(s) && s.sess.thread.Ended? && s' == s.(sess := s.sess.(listed := false))
    ensures Inv(s')
  {
  }

  /** The server closes a connection. */
  lemma ShutKeeps(s: State, s': State, k: nat)
    requires Inv(s) && k < |s.conns| && s' == SetConn(s, k, Shut(s.conns[k]))
    ensures Inv(s')
  {
    var c := Shut(s.conns[k]);
    ConnsReplaced(s.c, s.conns, s.h, s.sess.lastReq, k, c, s.h, s.sess.lastReq);
    ShutSession(s, s', k);
    ShutFlow(s, s', k);
  }

  lemma ShutSession(s: State, s': State, k: nat)
    requires Indexed(s) && SessionOk(s.c, s.mode, s.conns, s.sess, s.h) && CoverOk(s.c, s.conns, s.h)
    requires k < |s.conns| && s' == SetConn(s, k, Shut(s.conns[k]))
    ensures SessionOk(s'.c, s'.mode, s'.conns, s'.sess, s'.h) && CoverOk(s'.c, s'.conns, s'.h)
  {
  }

  lemma ShutFlow(s: State, s': State, k: nat)
    requires Indexed(s) && PipeOk(s.c, s.mode, s.conns, s.sess.thread) && ShakeOk(s.c, s.mode, s.conns, s.sess.thread)
    requires k < |s.conns| && s' == SetConn(s, k, Shut(s.conns[k]))
    ensures PipeOk(s'.c, s'.mode, s'.conns, s'.sess.thread) && ShakeOk(s'.c, s'.mode, s'.conns, s'.sess.thread)
  {
  }

  lemma BreakKeeps(s: State, s': State)
    requires Inv(s) && s.sess.thread.Serving?
    requires s' == SetConn(s, s.sess.thread.k, Shut(s.conns[s.sess.thread.k])).(sess := s.sess.(thread := Looking))
    ensures Inv(s')
  {
    var t := SetConn(s, s.sess.thread.k, Shut(s.conns[s.sess.thread.k]));
    hide HeldOk, ModeOk, ClientOk, CallHeld, ConnsOk, CoverOk, PipeOk, ShakeOk;
    ShutKeeps(s, t, s.sess.thread.k);
    DebtStays(t.c, t.mode, t.conns, t.sess.thread, s'.sess.thread);
  }

  lemma SendKeeps(s: State, s': State)
    requires Inv(s) && s.sess.thread.Sending?
    requires s' == SetConn(s, s.sess.thread.k, WriteDown(s.conns[s.sess.thread.k], Response(s.sess.thread.reply)))
                   .(sess := s.sess.(thread := Serving(s.sess.thread.k)))
    ensures Inv(s')
  {
    hide HeldOk, ModeOk, ClientOk, CallHeld, SessionOk, ConnsOk, ExecOk, CoverOk, PipeOk, ShakeOk;
    SendConns(s, s');
    SendSession(s, s');
    SendFlow(s, s');
  }

  lemma SendConns(s: State, s': State)
    requires Indexed(s) && ConnsOk(s.c, s.conns, s.h, s.sess.lastReq) && ExecOk(s.sess, s.h, s.c.minted)
    requires s.sess.thread.Sending?
    requires s' == SetConn(s, s.sess.thread.k, WriteDown(s.conns[s.sess.thread.k], Response(s.sess.thread.reply)))
                   .(sess := s.sess.(thread := Serving(s.sess.thread.k)))
    ensures ConnsOk(s'.c, s'.conns, s'.h, s'.sess.lastReq) && ExecOk(s'.sess, s'.h, s'.c.minted)
  {
    var k := s.sess.thread.k;
    ConnsReplaced(s.c, s.conns, s.h, s.sess.lastReq, k, s'.conns[k], s.h, s.sess.lastReq);
  }

  lemma SendSession(s: State, s': State)
    requires Indexed(s) && SessionOk(s.c, s.mode, s.conns, s.sess, s.h) && CoverOk(s.c, s.conns, s.h)
    requires s.sess.thread.Sending?
    requires s' == SetConn(s, s.sess.thread.k, WriteDown(s.conns[s.sess.thread.k], Response(s.sess.thread.reply)))
                   .(sess := s.sess.(thread := Serving(s.sess.thread.k)))
    ensures SessionOk(s'.c, s'.mode, s'.conns, s'.sess, s'.h) && CoverOk(s'.c, s'.conns, s'.h)
  {
  }

  lemma SendFlow(s: State, s': State)
    requires Indexed(s) && PipeOk(s.c, s.mode, s.conns, s.sess.thread) && ShakeOk(s.c, s.mode, s.conns, s.sess.thread)
    requires s.sess.thread.Sending?
    requires s' == SetConn(s, s.sess.thread.k, WriteDown(s.conns[s.sess.thread.k], Response(s.sess.thread.reply)))
                   .(sess := s.sess.(thread := Serving(s.sess.thread.k)))
    ensures PipeOk(s'.c, s'.mode, s'.conns, s'.sess.thread) && ShakeOk(s'.c, s'.mode, s'.conns, s'.sess.thread)
  {
  }

  lemma CompleteKeeps(s: State, s': State)
    requires Inv(s) && s.sess.thread.Running? && s' == ApplyComplete(s)
    ensures Inv(s')
  {
    hide HeldOk, ModeOk, ClientOk, SessionOk, CoverOk, PipeOk, ShakeOk;
    CompleteExec(s, s');
    CompleteFlow(s, s');
    var k := s.sess.thread.k;
    RanStays(s.conns[k], s.c.minted, s.h.calls, s.h.executed, s.h.executed, s.sess.lastReq, s'.sess.lastReq);
    ConnsReplaced(s.c, s.conns, s.h, s.sess.lastReq, k, s.conns[k], s.h, s'.sess.lastReq);
    assert s.conns[k := s.conns[k]] == s.conns;
  }

  lemma CompleteExec(s: State, s': State)
    requires Indexed(s) && ExecOk(s.sess, s.h, s.c.minted) && SessionOk(s.c, s.mode, s.conns, s.sess, s.h)
    requires s.sess.thread.Running? && s' == ApplyComplete(s)
    ensures ExecOk(s'.sess, s'.h, s'.c.minted) && SessionOk(s'.c, s'.mode, s'.conns, s'.sess, s'.h)
  {
  }

  /** Two thread states that owe the same answers. */
  ghost predicate SameDebt(t: Thread, t': Thread) {
    && (forall k :: AnswerDue(t, k) <==> AnswerDue(t', k))
    && (forall k, call :: ThreadAnswers(t, k, call) <==> ThreadAnswers(t', k, call))
  }

  lemma CompleteFlow(s: State, s': State)
    requires Indexed(s) && PipeOk(s.c, s.mode, s.conns, s.sess.thread) && ShakeOk(s.c, s.mode, s.conns, s.sess.thread)
    requires s.sess.thread.Running? && s' == ApplyComplete(s)
    ensures PipeOk(s'.c, s'.mode, s'.conns, s'.sess.thread) && ShakeOk(s'.c, s'.mode, s'.conns, s'.sess.thread)
  {
    DebtStays(s.c, s.mode, s.conns, s.sess.thread, s'.sess.thread);
  }

  lemma DebtStays(cl: Client, mode: Mode, conns: seq<Conn>, t: Thread, t': Thread)
    requires cl.conn.Some? ==> cl.conn.value < |conns|
    requires mode.Shaking? ==> mode.k < |conns|
    requires SameDebt(t, t') && PipeOk(cl, mode, conns, t) && ShakeOk(cl, mode, conns, t)
    ensures PipeOk(cl, mode, conns, t') && ShakeOk(cl, mode, conns, t')
  {
    DebtShakes(cl, mode, conns, t, t');
    hide ShakeOk, HasCall;
  }

  lemma DebtShakes(cl: Client, mode: Mode, conns: seq<Conn>, t: Thread, t': Thread)
    requires mode.Shaking? ==> mode.k < |conns|
    requires SameDebt(t, t') && ShakeOk(cl, mode, conns, t)
    ensures ShakeOk(cl, mode, conns, t')
  {
    hide HasCall;
  }

  // --- reading a frame

  ghost predicate ReadReady(s: State) {
    && Inv(s) && s.sess.thread.Serving? && s.conns[s.sess.thread.k].up != []
    && Near(s, s.sess.lastReq) && Near(s, s.sess.lastReplyId) && Near(s, s.conns[s.sess.thread.k].up[0].place)
  }

  lemma ReadIds(s: State)
    requires ReadReady(s)
    ensures var f := s.conns[s.sess.thread.k].up[0];
            && Minted(f, s.c.minted, s.h.calls)
            && (AtOrBefore(WireId(f.place), WireId(s.sess.lastReq)) <==> f.place <= s.sess.lastReq)
            && (WireId(f.place) == WireId(s.sess.lastReplyId) <==> f.place == s.sess.lastReplyId)
            && s.sess.lastReq == Done(s) <= s.c.minted
            && s.h.sessions == 1
  {
    var f := s.conns[s.sess.thread.k].up[0];
    assert ConnOk(s.conns[s.sess.thread.k], s.c.minted, s.h.calls, s.h.executed, s.sess.lastReq);
    assert Minted(f, s.c.minted, s.h.calls);
    OrderInWindow(f.place, s.sess.lastReq);
    OrderInWindow(f.place, s.sess.lastReplyId);
  }

  lemma RestHasNoCall(fs: seq<Frame>, call: nat)
    requires fs != [] && Ordered(fs) && OnlyCall(fs, call)
    ensures OnlyCall(fs[1..], call)
    ensures !fs[0].noReply ==> !HasCall(fs[1..])
    ensures fs[0].noReply ==> (HasCall(fs[1..]) <==> HasCall(fs))
  {
    var r := fs[1..];
    assert !fs[0].noReply ==> forall i :: 0 <= i < |r| ==> r[i] == fs[i + 1] && fs[i + 1].place != fs[0].place;
    if fs[0].noReply && HasCall(fs) {
      var i :| 0 <= i < |fs| && !fs[i].noReply;
      assert r[i - 1] == fs[i];
    }
  }

  lemma ReadCopyKeeps(s: State, s': State, r: Result)
    requires ReadReady(s) && s' == ApplyRead(s, r)
    requires AtOrBefore(WireId(s.conns[s.sess.thread.k].up[0].place), WireId(s.sess.lastReq))
    ensures Inv(s')
  {
    ReadIds(s);
    var k := s.sess.thread.k;
    CopyShape(s, s', k, r);
    hide HeldOk, ModeOk, ClientOk, CallHeld, SessionOk, ExecOk, ConnsOk, PipeOk, ShakeOk, CoverOk;
    hide ApplyRead, AtOrBefore, WireId;
    CopyConns(s, s', k);
    CopyCover(s.c, s.conns, s.h, k, s'.conns[k]);
    CopySession(s, s', k);
    CopyPipe(s, s', k);
    CopyShake(s, s', k);
  }

  /** A copy is answered again if its reply is the one kept, and otherwise only skipped. */
  ghost predicate Copied(s: State, s': State, k: nat) {
    && k < |s.conns| && s.conns[k].up != []
    && var f := s.conns[k].up[0];
       var c := s.conns[k].(up := s.conns[k].up[1..]);
       s' == SetConn(s, k, if !f.noReply && f.place == s.sess.lastReplyId
                           then WriteDown(c, Response(s.sess.lastReply)) else c)
  }

  lemma CopyShape(s: State, s': State, k: nat, r: Result)
    requires Indexed(s) && s.sess.thread == Serving(k) && s.conns[k].up != [] && s' == ApplyRead(s, r)
    requires var f := s.conns[k].up[0];
             && AtOrBefore(WireId(f.place), WireId(s.sess.lastReq))
             && (WireId(f.place) == WireId(s.sess.lastReplyId) <==> f.place == s.sess.lastReplyId)
    ensures Copied(s, s', k)
  {
  }

  lemma CopyConns(s: State, s': State, k: nat)
    requires Indexed(s) && ConnsOk(s.c, s.conns, s.h, s.sess.lastReq) && ExecOk(s.sess, s.h, s.c.minted)
    requires Copied(s, s', k) && Minted(s.conns[k].up[0], s.c.minted, s.h.calls)
    ensures ConnsOk(s'.c, s'.conns, s'.h, s'.sess.lastReq)
  {
    var c, up := s'.conns[k], s.conns[k].up;
    assert ConnOk(s.conns[k], s.c.minted, s.h.calls, s.h.executed, s.sess.lastReq);
    FramesPart(up, s.c.minted, s.h.calls, 1, |up|);
    ConnsReplaced(s.c, s.conns, s.h, s.sess.lastReq, k, c, s.h, s.sess.lastReq);
  }

  lemma CopySession(s: State, s': State, k: nat)
    requires Indexed(s) && SessionOk(s.c, s.mode, s.conns, s.sess, s.h)
    requires k < |s.conns| == |s'.conns| && s'.conns == s.conns[k := s'.conns[k]]
    requires s'.conns[k].accept == s.conns[k].accept && s'.conns[k].resuming == s.conns[k].resuming
    requires s'.conns[k].helloLast == s.conns[k].helloLast
    requires s'.conns[k].down == s.conns[k].down || (exists r :: s'.conns[k].down == s.conns[k].down + [Response(r)])
    requires s'.c == s.c && s'.mode == s.mode && s'.sess == s.sess && s'.h == s.h
    ensures SessionOk(s'.c, s'.mode, s'.conns, s'.sess, s'.h)
  {
  }

  lemma CopyCover(cl: Client, conns: seq<Conn>, h: History, k: nat, c: Conn)
    requires cl.conn.Some? ==> cl.conn.value < |conns|
    requires k < |conns| && CoverOk(cl, conns, h) && conns[k].up != [] && c.cut == conns[k].cut
    requires c.up == conns[k].up[1..] && conns[k].up[0].place <= LastRun(h.executed)
    ensures CoverOk(cl, conns[k := c], h)
  {
    if !h.gapped {
      var done := LastRun(h.executed);
      UpRest(conns[k].up, done, h.abandoned);
      if cl.conn == Some(k) && !c.cut {
        CoveredBy(conns[k].up + cl.queued, c.up + cl.queued, cl.minted, done, h.abandoned);
      }
    }
  }

  lemma CopyPipe(s: State, s': State, k: nat)
    requires Inv(s) && s.sess.thread == Serving(k) && s.conns[k].up != []
    requires s.sess.lastReq <= s.c.minted && s.conns[k].up[0].place <= s.sess.lastReq
    requires Copied(s, s', k)
    ensures PipeOk(s'.c, s'.mode, s'.conns, s'.sess.thread)
  {
    hide ShakeOk, CoverOk, HeldOk, CallHeld;
    if s.c.conn == Some(k) {
      assert ConnOk(s.conns[k], s.c.minted, s.h.calls, s.h.executed, s.sess.lastReq);
      RestHasNoCall(s.conns[k].up, ForCall(s.mode));
    }
  }

  /** The client still shakes hands on another connection: nothing has been written on that one. */
  lemma CopyShake(s: State, s': State, k: nat)
    requires Indexed(s) && ShakeOk(s.c, s.mode, s.conns, s.sess.thread) && Copied(s, s', k)
    ensures ShakeOk(s'.c, s'.mode, s'.conns, s'.sess.thread)
  {
    hide AllAnswer, RepliesAnswer, AdviceOk, ResendOk;
  }

  lemma ReadRunKeeps(s: State, s': State, r: Result)
    requires ReadReady(s) && s' == ApplyRead(s, r)
    requires !AtOrBefore(WireId(s.conns[s.sess.thread.k].up[0].place), WireId(s.sess.lastReq))
    ensures Inv(s')
  {
    ReadIds(s);
    var k := s.sess.thread.k;
    RunRecords(s, s', k, s.conns[k].up[0], r);
    RunPipe(s, s', k, s.conns[k].up[0], r);
    RunShake(s, s', k, s.conns[k].up[0], r);
    RunSession(s, s', k);
  }

  /** What the dispatch adds to the record, and what that settles. */
  lemma RunRecords(s: State, s': State, k: nat, f: Frame, r: Result)
    requires Inv(s) && s.sess.thread == Serving(k) && s.conns[k].up != [] && f == s.conns[k].up[0]
    requires Minted(f, s.c.minted, s.h.calls) && f.place > s.sess.lastReq == Done(s) && s.h.sessions == 1
    requires s'.c == s.c && s'.sess == s.sess.(thread := Running(k, f, r))
    requires s'.h == s.h.(executed := s.h.executed + [Exec(f.place, r, 1)])
    requires s'.conns == s.conns[k := s.conns[k].(up := s.conns[k].up[1..])]
    ensures ExecOk(s'.sess, s'.h, s'.c.minted)
    ensures ConnsOk(s'.c, s'.conns, s'.h, s'.sess.lastReq) && CoverOk(s'.c, s'.conns, s'.h)
  {
    var c, up := s'.conns[k], s.conns[k].up;
    FramesPart(up, s.c.minted, s.h.calls, 1, |up|);
    RanStays(s.conns[k], s.c.minted, s.h.calls, s.h.executed, s'.h.executed, s.sess.lastReq, s.sess.lastReq);
    ConnsReplaced(s.c, s.conns, s.h, s.sess.lastReq, k, c, s'.h, s.sess.lastReq);
    RunCover(s.c, s.conns, s.h, k, c, s'.h);
    RunExec(s, s', k, up[0], r);
  }

  lemma RunSession(s: State, s': State, k: nat)
    requires Indexed(s) && SessionOk(s.c, s.mode, s.conns, s.sess, s.h)
    requires s.sess.thread == Serving(k) && s.h.sessions == 1 && |s'.conns| == |s.conns|
    requires s'.conns == s.conns[k := s.conns[k].(up := s'.conns[k].up)]
    requires s'.c == s.c && s'.mode == s.mode && s'.h == s.h.(executed := s'.h.executed)
    requires s'.sess == s.sess.(thread := s'.sess.thread)
    ensures SessionOk(s'.c, s'.mode, s'.conns, s'.sess, s'.h)
  {
  }

  lemma RunCover(cl: Client, conns: seq<Conn>, h: History, k: nat, c: Conn, h': History)
    requires cl.conn.Some? ==> cl.conn.value < |conns|
    requires k < |conns| && CoverOk(cl, conns, h) && conns[k].up != [] && c.cut == conns[k].cut
    requires c.up == conns[k].up[1..] && conns[k].up[0].place > LastRun(h.executed)
    requires h'.abandoned == h.abandoned && h'.gapped == h.gapped && |h'.executed| == |h.executed| + 1
    requires Grown(h.executed, h'.executed) && h'.executed[|h.executed|].place == conns[k].up[0].place
    ensures CoverOk(cl, conns[k := c], h')
  {
    if !h.gapped {
      var done, done', ab := LastRun(h.executed), LastRun(h'.executed), h.abandoned;
      forall m | 1 <= m <= done' ensures Executed(h'.executed, m) || m in ab {
        if m <= done && m !in ab {
          var i :| 0 <= i < |h.executed| && h.executed[i].place == m;
          assert h'.executed[..|h.executed|][i].place == m;
        } else if m == done' {
          assert h'.executed[|h.executed|].place == m;
        } else {
          assert Settled(m, done, ab) || Holds(conns[k].up[..0], m);
        }
      }
      forall i | 0 <= i < |conns| ensures UpCovered(conns[i].up, done', ab) {
        UpStays(conns[i].up, done, ab, done', ab);
      }
      UpRest(conns[k].up, done', ab);
      if cl.conn.Some? && !conns[cl.conn.value].cut {
        var all := conns[cl.conn.value].up + cl.queued;
        CoveredBy(all, if cl.conn.value == k then c.up + cl.queued else all, cl.minted, done', ab) by {
          CoverStays(all, cl.minted, done, ab, done', ab);
        }
      }
    }
  }

  lemma RunExec(s: State, s': State, k: nat, f: Frame, r: Result)
    requires ExecOk(s.sess, s.h, s.c.minted) && s.sess.thread == Serving(k)
    requires Minted(f, s.c.minted, s.h.calls) && f.place > s.sess.lastReq
    requires s'.c == s.c && s'.sess == s.sess.(thread := Running(k, f, r))
    requires s'.h == s.h.(executed := s.h.executed + [Exec(f.place, r, 1)])
    ensures ExecOk(s'.sess, s'.h, s'.c.minted)
  {
    assert forall x :: x in s.h.executed ==> x in s'.h.executed;
  }

  lemma RunPipe(s: State, s': State, k: nat, f: Frame, r: Result)
    requires Inv(s) && s.sess.thread == Serving(k) && s.conns[k].up != [] && f == s.conns[k].up[0]
    requires s'.c == s.c && s'.mode == s.mode && s'.sess.thread == Running(k, f, r)
    requires s'.conns == s.conns[k := s.conns[k].(up := s.conns[k].up[1..])]
    ensures PipeOk(s'.c, s'.mode, s'.conns, s'.sess.thread)
  {
    hide ShakeOk, CoverOk, HeldOk, CallHeld, ExecOk, SessionOk;
    if s.c.conn == Some(k) {
      assert ConnOk(s.conns[k], s.c.minted, s.h.calls, s.h.executed, s.sess.lastReq);
      RestHasNoCall(s.conns[k].up, ForCall(s.mode));
    }
  }

  /** The client shakes hands on another connection, as nothing has been written on that one. */
  lemma RunShake(s: State, s': State, k: nat, f: Frame, r: Result)
    requires Indexed(s) && ShakeOk(s.c, s.mode, s.conns, s.sess.thread)
    requires s.sess.thread == Serving(k) && s.conns[k].up != []
    requires s'.c == s.c && s'.mode == s.mode && s'.sess.thread == Running(k, f, r)
    requires s'.conns == s.conns[k := s.conns[k].(up := s.conns[k].up[1..])]
    ensures ShakeOk(s'.c, s'.mode, s'.conns, s'.sess.thread)
  {
    hide AllAnswer, RepliesAnswer, AdviceOk, ResendOk;
  }
}
