/**
  A session that is gone: every client that comes back to it is told so, and no client is told so
  of a session that is still there.
 */
module ProtocolGone {
  import opened Wrappers
  import opened ReqIds
  import opened Wire
  import opened ClientState
  import opened Protocol
  import opened ProtocolInvariant
  import opened ProtocolRuns
  import opened ProtocolStories

  /** Nothing that comes back can find the session. */
  predicate Dead(sess: Session) {
    !sess.listed || sess.finished
  }

  predicate Greets(ds: seq<Down>) {
    exists i :: 0 <= i < |ds| && ds[i].Hello?
  }

  predicate SaysGone(ds: seq<Down>) {
    exists i :: 0 <= i < |ds| && ds[i].Hello? && !ds[i].resumed
  }

  ghost predicate WordOk(c: Conn, k: nat, sess: Session, h: History) {
    && (c.accept.Unread? ==> c.down == [])
    && (Greets(c.down) ==> h.sessions == 1)
    && (k > 0 && SaysGone(c.down) ==> Dead(sess))
  }

  /** What the session serves, or is to serve, has been read by an accept thread. */
  ghost predicate ServedOk(s: State) {
    && Indexed(s)
    && (s.sess.pending.Some? ==> !s.conns[s.sess.pending.value].accept.Unread?)
    && (s.sess.thread.Serving? || s.sess.thread.Running? || s.sess.thread.Sending? ==>
          !s.conns[s.sess.thread.k].accept.Unread?)
  }

  /** Nobody has been told, or is being told, that a session is gone unless it is. */
  ghost predicate TrueWord(s: State) {
    && (s.c.hadSession ==> s.h.sessions == 1)
    && (s.c.sessionGone ==> s.c.hadSession && Dead(s.sess))
    && (s.mode.Shaking? && s.c.hadSession ==> s.mode.k > 0)
    && ServedOk(s)
    && forall k :: 0 <= k < |s.conns| ==> WordOk(s.conns[k], k, s.sess, s.h)
  }

  /** The word stays true of a connection on which nothing was said. */
  lemma WordStays(c: Conn, c': Conn, k: nat, sess: Session, h: History, sess': Session, h': History)
    requires WordOk(c, k, sess, h)
    requires forall i :: 0 <= i < |c'.down| ==> c'.down[i] in c.down || c'.down[i].Response?
    requires c'.accept.Unread? ==> c.accept.Unread? && (c.down == [] ==> c'.down == [])
    requires h.sessions == 1 ==> h'.sessions == 1
    requires Dead(sess) && h.sessions == 1 ==> Dead(sess')
    ensures WordOk(c', k, sess', h')
  {
  }

  /** A step that says nothing of a session: connections keep their words, and a dead session stays dead. */
  ghost predicate Wordless(s: State, s': State) {
    && |s'.conns| == |s.conns|
    && (s.h.sessions == 1 ==> s'.h.sessions == 1) && (Dead(s.sess) && s.h.sessions == 1 ==> Dead(s'.sess))
    && s'.c.hadSession == s.c.hadSession && s'.c.sessionGone == s.c.sessionGone
    && (s'.mode.Shaking? ==> s'.mode == s.mode) && ServedOk(s')
    && forall k :: 0 <= k < |s.conns| ==> Quiet(s.conns[k], s'.conns[k])
  }

  ghost predicate Quiet(c: Conn, c': Conn) {
    && (forall i :: 0 <= i < |c'.down| ==> c'.down[i] in c.down || c'.down[i].Response?)
    && (c'.accept.Unread? ==> c.accept.Unread? && (c.down == [] ==> c'.down == []))
  }

  lemma WordlessKeeps(s: State, s': State)
    requires TrueWord(s) && Wordless(s, s')
    ensures TrueWord(s')
  {
    hide WordOk, Quiet, Dead;
    forall k | 0 <= k < |s'.conns| ensures WordOk(s'.conns[k], k, s'.sess, s'.h) {
      QuietKeeps(s, s', k);
    }
  }

  lemma QuietKeeps(s: State, s': State, k: nat)
    requires TrueWord(s) && Wordless(s, s') && k < |s.conns|
    ensures WordOk(s'.conns[k], k, s'.sess, s'.h)
  {
    WordStays(s.conns[k], s'.conns[k], k, s.sess, s.h, s'.sess, s'.h);
  }

  /** Neither a reply nor a loss says anything of the session. */
  lemma NothingSaid(d: seq<Down>, r: Reply, m: nat, n: nat)
    requires m <= n <= |d|
    ensures forall i :: 0 <= i < |d| + 1 ==> (d + [Response(r)])[i] in d || (d + [Response(r)])[i].Response?
    ensures forall i :: 0 <= i < n - m ==> d[m..n][i] in d
  {
    forall i | 0 <= i < n - m ensures d[m..n][i] in d {
      assert d[m..n][i] == d[m + i];
    }
  }

  // --- steps that say nothing --------------------------------------------------------

  lemma ClientQuiet(s: State, step: Step)
    requires Enabled(s, step) && ServedOk(s)
    requires step.QueueOneWay? || step.BeginCall? || step.Unreachable? || step.GiveUp?
    ensures Wordless(s, Apply(s, step))
  {
    CallEnds(s.c.(connectFailed := s.c.connectFailed || s.c.replayPossible), ForCall(s.mode));
    hide Abandon, QueueOne;
    SameConns(s, Apply(s, step));
  }

  /** Nothing is said where no connection and nothing of the session changes. */
  lemma SameConns(s: State, s': State)
    requires ServedOk(s) && s'.conns == s.conns && s'.sess == s.sess && s'.h.sessions == s.h.sessions
    requires s'.c.hadSession == s.c.hadSession && s'.c.sessionGone == s.c.sessionGone
    requires (s'.mode.Shaking? ==> s'.mode == s.mode) && (s'.c.conn == s.c.conn || s'.c.conn.None?)
    ensures Wordless(s, s')
  {
  }

  lemma ClientWrites(s: State, step: Step)
    requires Enabled(s, step) && ServedOk(s) && (step.FlushIdle? || step.FlushCall?)
    ensures Wordless(s, Apply(s, step))
  {
    FlushQuiet(s, s.c.conn.value, step.ok, step.count);
    hide Wordless, ServedOk, Flush, CallBroke;
  }

  lemma FlushQuiet(s: State, k: nat, ok: bool, count: nat)
    requires ServedOk(s) && k < |s.conns| && count <= |s.c.queued| && !s.mode.Shaking?
    ensures var t := Flush(s, k, ok, count);
            && Wordless(s, t)
            && (s.mode.Flushing? ==>
                  && Wordless(s, t.(mode := Waiting(s.mode.call, s.mode.attempt)))
                  && Wordless(s, CallBroke(t, s.mode.call, s.mode.attempt)))
  {
    WriteQuiet(s, k, ok, count);
    var t := Flush(s, k, ok, count);
    hide Flush, Quiet, Wordless;
    OneQuiet(s, t, k, t.conns[k]);
    if s.mode.Flushing? {
      CallEnds(t.c, s.mode.call);
      hide Abandon, ServedOk;
      OneQuiet(s, t.(mode := Waiting(s.mode.call, s.mode.attempt)), k, t.conns[k]);
      OneQuiet(s, CallBroke(t, s.mode.call, s.mode.attempt), k, t.conns[k]);
    }
  }

  lemma WriteQuiet(s: State, k: nat, ok: bool, count: nat)
    requires k < |s.conns| && count <= |s.c.queued|
    ensures var t := Flush(s, k, ok, count);
            && |t.conns| == |s.conns| && t.conns == s.conns[k := t.conns[k]] && Quiet(s.conns[k], t.conns[k])
            && t.sess == s.sess && t.h == s.h && t.mode == s.mode
            && t.c.hadSession == s.c.hadSession && t.c.sessionGone == s.c.sessionGone
            && (t.c.conn == s.c.conn || t.c.conn.None?)
  {
  }

  lemma ClientBroken(s: State, step: Step)
    requires Enabled(s, step) && ServedOk(s) && (step.ReceiveFails? || step.HandshakeFails?)
    ensures Wordless(s, Apply(s, step))
  {
    if step.ReceiveFails? {
      BrokeQuiet(s, s.c.conn.value, s.mode.call, s.mode.attempt);
    } else {
      var k := s.mode.k;
      QuietChanges(s.conns[k]);
      hide Quiet;
      OneQuiet(s, HandshakeFailed(s, k, s.mode.forCall), k, s.conns[k].(cut := true));
    }
    hide Wordless, CallBroke, DropConn;
  }

  lemma ClientReceives(s: State, step: Step)
    requires Enabled(s, step) && ServedOk(s) && step.Receive?
    ensures Wordless(s, Apply(s, step))
  {
    BrokeQuiet(s, s.c.conn.value, s.mode.call, s.mode.attempt);
    if s.conns[s.c.conn.value].down[0].Response? {
      ReplyQuiet(s, s.c.conn.value, s.mode.call);
    }
    hide Wordless, TakeReply, CallBroke, AbandonCall, DropConn, SetConn, WireId;
  }

  lemma BrokeQuiet(s: State, k: nat, call: nat, attempt: nat)
    requires ServedOk(s) && k < |s.conns| && !s.mode.Shaking?
    ensures Wordless(s, CallBroke(DropConn(s, k), call, attempt)) && Wordless(s, AbandonCall(DropConn(s, k), call))
  {
    CallEnds(s.c.(conn := None), call);
    hide Abandon;
    OneQuiet(s, CallBroke(DropConn(s, k), call, attempt), k, s.conns[k].(cut := true));
    OneQuiet(s, AbandonCall(DropConn(s, k), call), k, s.conns[k].(cut := true));
  }

  lemma ReplyQuiet(s: State, k: nat, call: nat)
    requires ServedOk(s) && k < |s.conns| && s.conns[k].down != []
    requires s.conns[k].down[0].Response?
    ensures Wordless(s, SetConn(s, k, s.conns[k].(down := s.conns[k].down[1..]))
                        .(c := TakeReply(s.c, call), mode := Idle,
                          h := s.h.(received := s.h.received + [s.conns[k].down[0].reply])))
  {
    var d := s.conns[k].down;
    NothingSaid(d, d[0].reply, 1, |d|);
    assert d[1..|d|] == d[1..];
    CallEnds(s.c, call);
    hide TakeReply;
    OneQuiet(s, SetConn(s, k, s.conns[k].(down := d[1..]))
                .(c := TakeReply(s.c, call), mode := Idle, h := s.h.(received := s.h.received + [d[0].reply])),
             k, s.conns[k].(down := d[1..]));
  }

  /** Only what is on one connection changes, and what the client makes of it. */
  lemma OneQuiet(s: State, s': State, k: nat, c: Conn)
    requires ServedOk(s) && k < |s.conns| && s'.conns == s.conns[k := c] && Quiet(s.conns[k], c)
    requires s'.sess == s.sess && s'.h.sessions == s.h.sessions && (s'.mode.Shaking? ==> s'.mode == s.mode)
    requires s'.c.hadSession == s.c.hadSession && s'.c.sessionGone == s.c.sessionGone
    requires s'.c.conn == s.c.conn || s'.c.conn.None?
    ensures Wordless(s, s')
  {
  }

  /** However a call ends, the client knows no more of the session. */
  lemma CallEnds(c: Client, call: nat)
    ensures var t := TakeReply(c, call);
            t.hadSession == c.hadSession && t.sessionGone == c.sessionGone && t.conn == c.conn
    ensures var a := Abandon(c, call); a.hadSession == c.hadSession && a.sessionGone == c.sessionGone && a.conn == None
  {
  }

  lemma ServerQuiet(s: State, step: Step)
    requires Enabled(s, step) && ServedOk(s)
    requires step.Take? || step.Expire? || step.Erase? || step.Complete? || step.Break?
    ensures Wordless(s, Apply(s, step))
  {
  }

  lemma ServerSends(s: State, step: Step)
    requires Enabled(s, step) && ServedOk(s) && step.Send?
    ensures Wordless(s, Apply(s, step))
  {
    NothingSaid(s.conns[s.sess.thread.k].down, s.sess.thread.reply, 0, 0);
  }

  lemma NetworkQuiet(s: State, step: Step)
    requires Enabled(s, step) && ServedOk(s) && step.Lose?
    ensures Wordless(s, Apply(s, step))
  {
    var d := s.conns[step.k].down;
    assert forall i :: 0 <= i < step.downs ==> d[..step.downs][i] in d;
  }

  lemma ServerReads(s: State, step: Step)
    requires Enabled(s, step) && ServedOk(s) && step.Read?
    ensures Wordless(s, Apply(s, step))
  {
    ReadSays(s, step.result);
    var k, s' := s.sess.thread.k, ApplyRead(s, step.result);
    hide Quiet, ApplyRead;
    assert s'.conns == s.conns[k := s'.conns[k]];
    forall i | 0 <= i < |s.conns| ensures Quiet(s.conns[i], s'.conns[i]) {
      QuietChanges(s.conns[i]);
    }
  }

  /** Reading a frame says nothing but, at most, a reply, and serves the same connection still. */
  lemma ReadSays(s: State, r: Result)
    requires Indexed(s) && ServedOk(s) && s.sess.thread.Serving? && s.conns[s.sess.thread.k].up != []
    ensures var k, s' := s.sess.thread.k, ApplyRead(s, r);
            && |s'.conns| == |s.conns| && s'.conns == s.conns[k := s'.conns[k]] && Quiet(s.conns[k], s'.conns[k])
            && s'.conns[k].accept == s.conns[k].accept && s'.c == s.c && s'.mode == s.mode
            && s'.h.sessions == s.h.sessions && s'.sess == s.sess.(thread := s'.sess.thread)
            && (s'.sess.thread == s.sess.thread || (s'.sess.thread.Running? && s'.sess.thread.k == k))
  {
    hide AtOrBefore, WireId;
    NothingSaid(s.conns[s.sess.thread.k].down, s.sess.lastReply, 0, 0);
  }

  lemma AcceptQuiet(s: State, step: Step)
    requires Enabled(s, step) && ServedOk(s) && (step.Snapshot? || step.SendUnanswered?)
    ensures Wordless(s, Apply(s, step))
  {
    hide AtOrBefore, WireId;
    var k, s' := step.k, Apply(s, step);
    var reply := if step.SendUnanswered? then s.conns[k].accept.unanswered[0] else s.sess.lastReply;
    NothingSaid(s.conns[k].down, reply, 0, 0);
    assert Quiet(s.conns[k], s'.conns[k]);
    hide Quiet;
    OneQuiet(s, s', k, s'.conns[k]);
  }

  lemma HandOverQuiet(s: State, step: Step)
    requires Enabled(s, step) && ServedOk(s) && step.HandOver?
    ensures Wordless(s, Apply(s, step))
  {
    HandOverSays(s, step.k);
    hide Quiet, ApplyHandOver;
  }

  lemma HandOverSays(s: State, k: nat)
    requires Indexed(s) && ServedOk(s) && k < |s.conns| && s.conns[k].accept.Greeted?
    ensures var s' := ApplyHandOver(s, k);
            && |s'.conns| == |s.conns| && s'.c == s.c && s'.mode == s.mode && s'.h == s.h && ServedOk(s')
            && s'.sess.listed == s.sess.listed && s'.sess.finished == s.sess.finished
            && forall i :: 0 <= i < |s.conns| ==> Quiet(s.conns[i], s'.conns[i])
  {
    var s' := ApplyHandOver(s, k);
    forall i | 0 <= i < |s.conns| ensures Quiet(s.conns[i], s'.conns[i]) {
      QuietChanges(s.conns[i]);
    }
    hide Quiet;
  }

  /** Closing a connection, cutting it or handing it over says nothing. */
  lemma QuietChanges(c: Conn)
    ensures Quiet(c, c) && Quiet(c, Shut(c)) && Quiet(c, c.(cut := true)) && Quiet(c, c.(accept := Handed))
    ensures Quiet(c, Shut(c).(accept := Handed))
  {
  }

  // --- steps that do -----------------------------------------------------------------

  lemma OpenSpeaks(s: State)
    requires TrueWord(s) && Inv(s) && Enabled(s, Open)
    ensures TrueWord(Apply(s, Open))
  {
    hide HeldOk, ModeOk, ClientOk, CallHeld, ExecOk, ConnsOk, PipeOk, ShakeOk, CoverOk;
  }

  lemma LookupSpeaks(s: State, k: nat, full: bool)
    requires TrueWord(s) && Inv(s) && Enabled(s, Lookup(k, full))
    ensures TrueWord(Apply(s, Lookup(k, full)))
  {
    hide HeldOk, ModeOk, ClientOk, CallHeld, ExecOk, ConnsOk, PipeOk, ShakeOk, CoverOk;
    assert HelloOk(s.conns[k], k, s.c.minted);
  }

  lemma GreetSpeaks(s: State, k: nat, ok: bool)
    requires TrueWord(s) && Inv(s) && Enabled(s, Greet(k, ok))
    ensures TrueWord(Apply(s, Greet(k, ok)))
  {
    hide HeldOk, ModeOk, ClientOk, CallHeld, ExecOk, ConnsOk, PipeOk, ShakeOk, CoverOk;
    assert HelloOk(s.conns[k], k, s.c.minted);
  }

  lemma HandshakeSpeaks(s: State, ok: bool, count: nat)
    requires TrueWord(s) && Enabled(s, HandshakeDone(ok, count))
    ensures TrueWord(Apply(s, HandshakeDone(ok, count)))
  {
    var s', k := Apply(s, HandshakeDone(ok, count)), s.mode.k;
    assert WordOk(s.conns[k], k, s.sess, s.h);
    HandshakeHeard(s, ok, count);
    hide Apply, Enabled;
    forall j | 0 <= j < |s'.conns| ensures WordOk(s'.conns[j], j, s'.sess, s'.h) {
      assert Quiet(s.conns[j], s'.conns[j]) && WordOk(s.conns[j], j, s.sess, s.h);
      WordStays(s.conns[j], s'.conns[j], j, s.sess, s.h, s'.sess, s'.h);
    }
  }

  /** What a client makes of the answer to its handshake. */
  lemma HandshakeHeard(s: State, ok: bool, count: nat)
    requires Enabled(s, HandshakeDone(ok, count))
    ensures var s', d := Apply(s, HandshakeDone(ok, count)), s.conns[s.mode.k].down[0];
            && |s'.conns| == |s.conns| && s'.sess == s.sess && s'.h.sessions == s.h.sessions && !s'.mode.Shaking?
            && Indexed(s')
            && (s'.c.hadSession <==> s.c.hadSession || d.Hello?)
            && (s'.c.sessionGone <==> s.c.sessionGone || (d.Hello? && !d.resumed && s.c.hadSession))
            && forall j :: 0 <= j < |s.conns| ==> Quiet(s.conns[j], s'.conns[j])
  {
    var d := s.conns[s.mode.k].down[0];
    if d.Hello? {
      AnswerHeard(s, s.mode.k, s.mode.forCall, d.resumed, d.lastReq, ok, count);
    }
    hide Answered;
  }

  lemma AnswerHeard(s: State, k: nat, call: nat, resumed: bool, lastReq: nat, ok: bool, count: nat)
    requires Indexed(s) && k < |s.conns| && s.conns[k].down != []
    ensures var s' := Answered(s, k, call, resumed, lastReq, ok, count);
            && |s'.conns| == |s.conns| && s'.sess == s.sess && s'.h.sessions == s.h.sessions && !s'.mode.Shaking?
            && (s'.c.conn.Some? ==> s'.c.conn.value < |s'.conns|)
            && (s'.c.hadSession <==> s.c.hadSession || !(s.c.hadSession && !resumed))
            && (s'.c.sessionGone <==> s.c.sessionGone || (s.c.hadSession && !resumed))
            && forall j :: 0 <= j < |s.conns| ==> Quiet(s.conns[j], s'.conns[j])
  {
    hide AckedCount, TotalSize, WithoutLast;
    var d := s.conns[k].down;
    assert forall i :: 0 <= i < |d[1..]| ==> d[1..][i] in d;
  }

  lemma WordStep(s: State, step: Step)
    requires TrueWord(s) && Inv(s) && Enabled(s, step)
    ensures TrueWord(Apply(s, step))
  {
    assert ServedOk(s);
    hide *;
    if step.QueueOneWay? || step.BeginCall? || step.Unreachable? || step.GiveUp? {
      ClientQuiet(s, step);
      WordlessKeeps(s, Apply(s, step));
    } else if step.FlushIdle? || step.FlushCall? {
      ClientWrites(s, step);
      WordlessKeeps(s, Apply(s, step));
    } else if step.ReceiveFails? || step.HandshakeFails? {
      ClientBroken(s, step);
      WordlessKeeps(s, Apply(s, step));
    } else if step.Receive? {
      ClientReceives(s, step);
      WordlessKeeps(s, Apply(s, step));
    } else if step.Send? {
      ServerSends(s, step);
      WordlessKeeps(s, Apply(s, step));
    } else if step.Open? {
      OpenSpeaks(s);
    } else if step.Lookup? {
      LookupSpeaks(s, step.k, step.full);
    } else if step.Greet? {
      GreetSpeaks(s, step.k, step.ok);
    } else if step.HandshakeDone? {
      HandshakeSpeaks(s, step.ok, step.count);
    } else if step.Read? {
      ServerReads(s, step);
      WordlessKeeps(s, Apply(s, step));
    } else if step.Snapshot? || step.SendUnanswered? {
      AcceptQuiet(s, step);
      WordlessKeeps(s, Apply(s, step));
    } else if step.HandOver? {
      HandOverQuiet(s, step);
      WordlessKeeps(s, Apply(s, step));
    } else if step.Lose? {
      NetworkQuiet(s, step);
      WordlessKeeps(s, Apply(s, step));
    } else {
      ServerQuiet(s, step);
      WordlessKeeps(s, Apply(s, step));
    }
  }

  lemma {:induction false} RunWord(states: seq<State>, steps: seq<Step>, n: nat)
    requires IsRun(states, steps) && n < |states|
    ensures TrueWord(states[n])
  {
    hide Enabled, Apply;
    if n > 0 {
      RunWord(states, steps, n - 1);
      RunInv(states, steps, n - 1);
      assert Moves(states[n - 1], steps[n - 1], states[n]);
      WordStep(states[n - 1], steps[n - 1]);
    }
  }

  // --- what it comes to ----------------------------------------------------------------

  /** A client is told that its session is gone only if it is, and there will be no other. */
  lemma GoneIsTrue(states: seq<State>, steps: seq<Step>, n: nat)
    requires IsRun(states, steps) && n < |states| && states[n].c.sessionGone
    ensures Dead(states[n].sess) && states[n].h.sessions == 1
  {
    RunWord(states, steps, n);
  }

  /**
    The server's answer to a handshake, over every run: a session that is there is taken back; the
    first handshake starts one, unless there is no room; and whoever comes back to a session that
    is gone is told so.
   */
  lemma LookupAnswers(states: seq<State>, steps: seq<Step>, n: nat, k: nat, full: bool)
    requires IsRun(states, steps) && n < |steps| && steps[n] == Lookup(k, full)
    ensures k < |states[n].conns| && k < |states[n + 1].conns|
    ensures var s, s' := states[n], states[n + 1];
            var c, c' := s.conns[k], s'.conns[k];
            && c.down == []
            && (!Dead(s.sess) ==> c'.accept == Found(true) && c'.down == [] && s'.sess == s.sess)
            && (Dead(s.sess) && c.resuming ==>
                  c'.accept == Closed && s'.sess == s.sess && (!c.cut ==> c'.down == [Hello(false, 0)]))
            && (Dead(s.sess) && !c.resuming ==>
                  if full && !s.sess.listed
                  then c'.accept == Closed && s'.sess == s.sess && (!c.cut ==> c'.down == [Busy])
                  else c'.accept == Found(false) && c'.down == [] && s'.sess == NewSession)
  {
    RunWord(states, steps, n);
    RunInv(states, steps, n);
    assert Moves(states[n], steps[n], states[n + 1]);
    assert HelloOk(states[n].conns[k], k, states[n].c.minted);
    assert WordOk(states[n].conns[k], k, states[n].sess, states[n].h);
    hide Inv, TrueWord, WordOk;
    LookedUpAs(states[n], k, full);
  }

  lemma LookedUpAs(s: State, k: nat, full: bool)
    requires Enabled(s, Lookup(k, full)) && s.conns[k].down == [] && (k == 0 ==> s.conns[k].helloLast == 0)
    requires s.conns[k].resuming <==> k > 0
    ensures var s' := Apply(s, Lookup(k, full));
            var c, c' := s.conns[k], s'.conns[k];
            && (!Dead(s.sess) ==> c'.accept == Found(true) && c'.down == [] && s'.sess == s.sess)
            && (Dead(s.sess) && c.resuming ==>
                  c'.accept == Closed && s'.sess == s.sess && (!c.cut ==> c'.down == [Hello(false, 0)]))
            && (Dead(s.sess) && !c.resuming ==>
                  if full && !s.sess.listed
                  then c'.accept == Closed && s'.sess == s.sess && (!c.cut ==> c'.down == [Busy])
                  else c'.accept == Found(false) && c'.down == [] && s'.sess == NewSession)
  {
  }

  /** On the connection there is nothing but the word that the session is gone, and nobody to write more. */
  ghost predicate Told(s: State, k: nat) {
    && k < |s.conns| && s.c.hadSession && s.conns[k].accept.Closed?
    && s.sess.pending != Some(k)
    && !((s.sess.thread.Serving? || s.sess.thread.Running? || s.sess.thread.Sending?) && s.sess.thread.k == k)
    && forall i :: 0 <= i < |s.conns[k].down| ==> s.conns[k].down[i] == Hello(false, 0)
  }

  lemma ToldStep(s: State, step: Step, k: nat)
    requires Enabled(s, step) && Told(s, k)
    ensures Told(Apply(s, step), k)
  {
    if step.HandshakeDone? {
      ToldHandshake(s, step, k);
    } else if step.Lookup? || step.Snapshot? || step.Greet? || step.SendUnanswered? || step.HandOver? {
      ToldAccept(s, step, k);
    } else if OfClient(step) {
      ToldClient(s, step, k);
    } else {
      ToldServer(s, step, k);
    }
  }

  lemma ToldHandshake(s: State, step: Step, k: nat)
    requires Enabled(s, step) && step.HandshakeDone? && Told(s, k)
    ensures Told(Apply(s, step), k)
  {
    var d := s.conns[s.mode.k].down[0];
    if d.Hello? {
      ToldAnswered(s, s.mode.k, s.mode.forCall, d.resumed, d.lastReq, step.ok, step.count, k);
    }
    hide Answered;
  }

  lemma ToldAnswered(s: State, j: nat, call: nat, resumed: bool, lastReq: nat, ok: bool, count: nat, k: nat)
    requires Told(s, k) && j < |s.conns| && s.conns[j].down != []
    ensures Told(Answered(s, j, call, resumed, lastReq, ok, count), k)
  {
    hide AckedCount, TotalSize, WithoutLast;
  }

  lemma ToldAccept(s: State, step: Step, k: nat)
    requires Enabled(s, step) && Told(s, k)
    requires step.Lookup? || step.Snapshot? || step.Greet? || step.SendUnanswered? || step.HandOver?
    ensures Told(Apply(s, step), k)
  {
    hide AtOrBefore, WireId;
  }

  lemma ToldClient(s: State, step: Step, k: nat)
    requires Enabled(s, step) && Told(s, k) && !step.HandshakeDone? && OfClient(step)
    ensures Told(Apply(s, step), k)
  {
    if step.Receive? {
      ToldReceive(s, k);
    } else if step.QueueOneWay? || step.FlushIdle? || step.BeginCall? || step.FlushCall? {
      ToldWrites(s, step, k);
    } else {
      ToldLeaves(s, step, k);
    }
    hide Told, Flush, CallBroke, ApplyReceive, QueueOne;
  }

  lemma ToldWrites(s: State, step: Step, k: nat)
    requires Enabled(s, step) && Told(s, k)
    requires step.QueueOneWay? || step.FlushIdle? || step.BeginCall? || step.FlushCall?
    ensures Told(Apply(s, step), k)
  {
    hide TotalSize, WithoutLast;
  }

  lemma ToldLeaves(s: State, step: Step, k: nat)
    requires Enabled(s, step) && Told(s, k)
    requires step.ReceiveFails? || step.GiveUp? || step.Unreachable? || step.Open? || step.HandshakeFails?
    ensures Told(Apply(s, step), k)
  {
    hide TotalSize, WithoutLast;
  }

  lemma ToldReceive(s: State, k: nat)
    requires Enabled(s, Receive) && Told(s, k)
    ensures Told(ApplyReceive(s), k)
  {
    var j, call := s.c.conn.value, s.mode.call;
    ToldBroke(s, j, call, s.mode.attempt, k);
    CallEnds(s.c, call);
    hide TakeReply, WireId, CallBroke, AbandonCall, DropConn;
  }

  lemma ToldBroke(s: State, j: nat, call: nat, attempt: nat, k: nat)
    requires Told(s, k) && j < |s.conns|
    ensures Told(CallBroke(DropConn(s, j), call, attempt), k) && Told(AbandonCall(DropConn(s, j), call), k)
  {
    CallEnds(s.c.(conn := None), call);
    hide Abandon;
  }

  lemma ToldServer(s: State, step: Step, k: nat)
    requires Enabled(s, step) && Told(s, k) && !OfClient(step)
    requires !(step.Lookup? || step.Snapshot? || step.Greet? || step.SendUnanswered? || step.HandOver?)
    ensures Told(Apply(s, step), k)
  {
    hide AtOrBefore, WireId;
  }

  predicate OfClient(step: Step) {
    || step.QueueOneWay? || step.FlushIdle? || step.BeginCall? || step.FlushCall? || step.Receive? || step.ReceiveFails?
    || step.GiveUp? || step.Unreachable? || step.Open? || step.HandshakeFails? || step.HandshakeDone?
  }

  lemma {:induction false} ToldStays(states: seq<State>, steps: seq<Step>, n: nat, m: nat, k: nat)
    requires IsRun(states, steps) && n <= m < |states| && Told(states[n], k)
    ensures Told(states[m], k)
  {
    hide Enabled, Apply, Told;
    if n < m {
      ToldStays(states, steps, n, m - 1, k);
      assert Moves(states[m - 1], steps[m - 1], states[m]);
      ToldStep(states[m - 1], steps[m - 1], k);
    }
  }

  /** A client that comes back to a session that is gone learns it, if it reads an answer at all. */
  lemma GoneIsTold(states: seq<State>, steps: seq<Step>, n: nat, m: nat, k: nat, full: bool)
    requires IsRun(states, steps) && n < m < |steps| && steps[n] == Lookup(k, full) && k < |states[n].conns|
    requires states[n].conns[k].resuming && Dead(states[n].sess)
    requires steps[m].HandshakeDone? && states[m].mode.Shaking? && states[m].mode.k == k
    ensures states[m + 1].c.sessionGone
  {
    ToldAtOnce(states, steps, n, k, full);
    ToldStays(states, steps, n + 1, m, k);
    assert Moves(states[m], steps[m], states[m + 1]);
    HandshakeHeard(states[m], steps[m].ok, steps[m].count);
    hide Apply;
  }

  lemma ToldAtOnce(states: seq<State>, steps: seq<Step>, n: nat, k: nat, full: bool)
    requires IsRun(states, steps) && n < |steps| && steps[n] == Lookup(k, full) && k < |states[n].conns|
    requires states[n].conns[k].resuming && Dead(states[n].sess)
    ensures Told(states[n + 1], k)
  {
    RunWord(states, steps, n);
    RunInv(states, steps, n);
    assert Moves(states[n], steps[n], states[n + 1]);
    assert HelloOk(states[n].conns[k], k, states[n].c.minted);
    hide HeldOk, ModeOk, ClientOk, CallHeld, ExecOk, ConnsOk, PipeOk, ShakeOk, CoverOk;
  }

  // --- and it happens ----------------------------------------------------------------

  const ENDED := NewSession.(listed := false, finished := true, thread := Ended)
  const LOST := FIRST.(accept := Closed, cut := true)

  /** The session has expired while the client was away, and the client does not know. */
  const AWAY := State(CONNECTED.(conn := None), Idle, ENDED, [LOST], ONE_SESSION)

  lemma SessionExpires(before: seq<Step>) returns (steps: seq<Step>)
    requires Reaches(before, STARTED)
    ensures Reaches(steps, AWAY)
  {
    hide Reaches;
    var s1 := STARTED.(sess := NewSession.(pending := Some(0), thread := Looking), conns := [FIRST.(accept := Handed)]);
    var s2 := s1.(sess := NewSession.(thread := Serving(0)));
    var s3 := s1.(sess := NewSession.(thread := Looking), conns := [LOST]);
    var s4 := s3.(sess := ENDED.(listed := true));
    var s5 := s3.(sess := ENDED);
    assert Apply(STARTED, HandOver(0)).conns == s1.conns;
    steps := Next(before, STARTED, HandOver(0), s1);
    steps := Next(steps, s1, Take, s2);
    assert Apply(s2, Break).conns == s3.conns;
    steps := Next(steps, s2, Break, s3);
    steps := Next(steps, s3, Expire, s4);
    steps := Next(steps, s4, Erase, s5);
    assert Apply(s5, Lose(0, 0, 0)).conns == s5.conns;
    steps := Next(steps, s5, Lose(0, 0, 0), s5);
    assert Apply(s5, FlushIdle(false, 0)).conns[0] == LOST;
    assert Apply(s5, FlushIdle(false, 0)).conns == AWAY.conns;
    steps := Next(steps, s5, FlushIdle(false, 0), AWAY);
  }

  lemma ComesBackToNothing(before: seq<Step>) returns (steps: seq<Step>, t: State)
    requires Reaches(before, AWAY)
    ensures Reaches(steps, t) && t.c.sessionGone
  {
    hide Reaches;
    var c := Conn(true, 0, Unread, [], [], false, []);
    var s1 := AWAY.(mode := Shaking(1, 0), conns := [LOST, c]);
    var s2 := s1.(conns := [LOST, c.(accept := Closed, down := [Hello(false, 0)], cut := true)]);
    assert Apply(AWAY, Open).conns == s1.conns;
    steps := Next(before, AWAY, Open, s1);
    QueueOfOne(Hello(false, 0));
    assert Apply(s1, Lookup(1, false)).conns == s2.conns;
    steps := Next(steps, s1, Lookup(1, false), s2);
    steps, t := IsToldSo(steps, s2);
  }

  lemma IsToldSo(before: seq<Step>, s: State) returns (steps: seq<Step>, t: State)
    requires Reaches(before, s) && Enabled(s, HandshakeDone(true, 0)) && s.c.hadSession
    requires s.conns[s.mode.k].down == [Hello(false, 0)]
    ensures Reaches(steps, t) && t.c.sessionGone
  {
    HandshakeHeard(s, true, 0);
    hide Reaches, Apply;
    t := Apply(s, HandshakeDone(true, 0));
    steps := Next(before, s, HandshakeDone(true, 0), t);
  }

  /** A run in which a client learns that its session is gone. */
  lemma SessionIsGone() returns (states: seq<State>, steps: seq<Step>)
    ensures IsRun(states, steps) && states[|steps|].c.sessionGone
  {
    hide Reaches;
    steps := Connects();
    steps := SessionExpires(steps);
    var t;
    steps, t := ComesBackToNothing(steps);
    states := RunTo(steps, t);
  }
}
