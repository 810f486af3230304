/** What every reachable state of the session protocol satisfies. */
module ProtocolInvariant {
  import opened ReqIds
  import opened Wire
  import opened ClientState
  import opened Protocol

  /** The last request dispatched; 0 if none. */
  ghost function LastRun(ex: seq<Exec>): nat {
    if ex == [] then 0 else ex[|ex| - 1].place
  }

  ghost function Done(s: State): nat {
    LastRun(s.h.executed)
  }

  ghost predicate Ran(ex: seq<Exec>, r: Reply) {
    Exec(r.place, r.result, 1) in ex
  }

  ghost predicate Executed(ex: seq<Exec>, m: nat) {
    exists i :: 0 <= i < |ex| && ex[i].place == m
  }

  /** A frame the client minted: in range, and flagged as the client recorded it. */
  ghost predicate Minted(f: Frame, minted: nat, calls: set<nat>) {
    && 1 <= f.place <= minted
    && (f.noReply <==> f.place !in calls)
  }

  ghost predicate FramesOk(fs: seq<Frame>, minted: nat, calls: set<nat>) {
    && Ordered(fs)
    && forall i :: 0 <= i < |fs| ==> Minted(fs[i], minted, calls)
  }

  /** Every frame that wants a reply is request `call`. */
  ghost predicate OnlyCall(fs: seq<Frame>, call: nat) {
    forall i :: 0 <= i < |fs| && !fs[i].noReply ==> fs[i].place == call
  }

  ghost predicate HasCall(fs: seq<Frame>) {
    exists i :: 0 <= i < |fs| && !fs[i].noReply
  }

  // --- the client ---------------------------------------------------------------------

  ghost predicate ModeOk(c: Client, mode: Mode, calls: set<nat>, conns: nat) {
    var call := ForCall(mode);
    && (call != 0 ==> call == c.minted && call in calls && c.lastReply < call)
    && (mode.Flushing? || mode.Waiting? ==> call != 0 && c.conn.Some?)
    && (mode.Reconnecting? ==> call != 0 && c.conn.None?)
    && (mode.Shaking? ==> c.conn.None? && mode.k == conns - 1)
    && (mode.Shaking? && call != 0 ==> c.replayPossible)
    && (mode.Flushing? ==> mode.attempt <= 1)
    && (mode.Waiting? || (mode.Flushing? && mode.attempt == 1) ==> c.queued == [])
    && (c.conn.None? ==> c.queued == [])
  }

  ghost predicate ClientOk(c: Client, call: nat, calls: set<nat>) {
    && FramesOk(c.queued, c.minted, calls) && FramesOk(c.unacked, c.minted, calls)
    && OnlyCall(c.queued, call) && OnlyCall(c.unacked, call)
    && (c.lastReply == 0 || c.lastReply in calls)
    && (forall m :: m in calls ==> 1 <= m <= c.minted && (m <= c.lastReply || m == call))
  }

  /** The awaited call is held for replay until the server has completed it. */
  ghost predicate CallHeld(c: Client, call: nat, lastReq: nat) {
    call != 0 && c.replayPossible ==> Holds(c.unacked, call) || call <= lastReq
  }

  /** Whether the client has a session, and how many handshakes it has written without one. */
  ghost predicate SessionOk(c: Client, mode: Mode, conns: seq<Conn>, sess: Session, h: History) {
    && (!c.hadSession ==>
          && c.minted == 0 && c.conn.None? && c.lastReply == 0 && !c.sessionGone
          && c.unacked == [] && c.replayPossible
          && |conns| <= 1
          && (mode == Idle || mode == Shaking(0, 0))
          && (|conns| == 1 ==> mode == Shaking(0, 0) || c.connectFailed))
    && (c.hadSession ==> |conns| >= 1)
    && (h.gapped ==> !c.replayPossible)
    && (c.sessionGone ==>
          mode == Idle && c.conn.None? && c.connectFailed && c.unacked == [] && c.queued == [])
    && (forall k :: 0 <= k < |conns| ==> HelloOk(conns[k], k, c.minted))
    && h.sessions <= 1
    && (h.sessions == 1 ==> |conns| >= 1 && !conns[0].accept.Unread?)
    && (h.sessions == 0 ==> sess == NoSession && h.executed == [])
    && (h.sessions == 0 ==>
          forall k :: 0 <= k < |conns| ==> conns[k].accept.Unread? || conns[k].accept.Closed?)
    && (|conns| >= 1 && !conns[0].accept.Handed? && !conns[0].accept.Closed? ==>
          sess.thread.Unstarted? && h.executed == [])
  }

  /** Only the first handshake starts a session; it never resumes one, and no other starts one. */
  ghost predicate HelloOk(c: Conn, k: nat, minted: nat) {
    && (c.resuming <==> k > 0)
    && (k == 0 ==> c.helloLast == 0)
    && c.helloLast <= minted
    && (c.accept.Found? ==> c.accept.resumed == (k > 0))
    && (c.accept.Snapped? ==> c.accept.resumed == (k > 0))
    && (c.accept.Greeted? ==> c.accept.isNew == (k == 0))
    && (forall i :: 0 <= i < |c.down| && c.down[i].Hello? && c.down[i].resumed ==> k > 0)
  }

  // --- the server ---------------------------------------------------------------------

  ghost predicate ExecOk(sess: Session, h: History, minted: nat) {
    var ex := h.executed;
    && (forall i, j :: 0 <= i < j < |ex| ==> ex[i].place < ex[j].place)
    && (forall i :: 0 <= i < |ex| ==> 1 <= ex[i].place <= minted && ex[i].session == 1)
    && sess.lastReq <= LastRun(ex)
    && (!sess.thread.Running? ==> sess.lastReq == LastRun(ex))
    && (sess.thread.Running? ==>
          var Running(k, f, result) := sess.thread;
          && Minted(f, minted, h.calls) && sess.lastReq < f.place
          && ex != [] && ex[|ex| - 1] == Exec(f.place, result, 1))
    && (sess.thread.Sending? ==> Ran(h.executed, sess.thread.reply))
    && sess.lastReplyId <= sess.lastReq
    && (sess.lastReplyId != 0 ==>
          sess.lastReplyId in h.calls && sess.lastReply.place == sess.lastReplyId && Ran(h.executed, sess.lastReply))
    && (sess.lastReq in h.calls ==> sess.lastReplyId == sess.lastReq)
    && (forall i :: 0 <= i < |h.received| ==> Ran(h.executed, h.received[i]))
  }

  // --- connections --------------------------------------------------------------------

  ghost function Unanswered(a: Accept): seq<Reply> {
    match a
    case Snapped(_, _, u) => u
    case Greeted(u, _) => u
    case _ => []
  }

  ghost predicate ConnOk(c: Conn, minted: nat, calls: set<nat>, ex: seq<Exec>, lastReq: nat) {
    && FramesOk(c.up, minted, calls)
    && |Unanswered(c.accept)| <= 1
    && (forall i :: 0 <= i < |Unanswered(c.accept)| ==> Ran(ex, Unanswered(c.accept)[i]))
    && (c.accept.Snapped? ==> c.accept.lastReq <= lastReq)
    && (forall i :: 0 <= i < |c.down| ==> DownOk(c.down[i], ex, lastReq))
  }

  ghost predicate DownOk(d: Down, ex: seq<Exec>, lastReq: nat) {
    match d
    case Hello(resumed, l) => l <= lastReq
    case Busy => true
    case Response(reply) => Ran(ex, reply)
  }

  ghost predicate Before(a: seq<Frame>, b: seq<Frame>) {
    forall i, j :: 0 <= i < |a| && 0 <= j < |b| ==> a[i].place < b[j].place
  }

  ghost predicate ConnsOk(c: Client, conns: seq<Conn>, h: History, lastReq: nat)
    requires c.conn.Some? ==> c.conn.value < |conns|
  {
    && (forall k :: 0 <= k < |conns| ==> ConnOk(conns[k], c.minted, h.calls, h.executed, lastReq))
    && (c.conn.Some? ==> Before(conns[c.conn.value].up, c.queued))
  }

  // --- replies on their way -------------------------------------------------------------

  function One(b: bool): nat { if b then 1 else 0 }

  /** The serving thread is about to answer a call on connection `k`. */
  ghost predicate AnswerDue(t: Thread, k: nat) {
    (t.Running? && t.k == k && !t.frame.noReply) || (t.Sending? && t.k == k)
  }

  ghost predicate ThreadAnswers(t: Thread, k: nat, call: nat) {
    && (t.Running? && t.k == k && !t.frame.noReply ==> t.frame.place == call)
    && (t.Sending? && t.k == k ==> t.reply.place == call)
  }

  ghost predicate AllAnswer(ds: seq<Down>, call: nat) {
    forall i :: 0 <= i < |ds| ==> ds[i].Response? && ds[i].reply.place == call
  }

  ghost predicate RepliesAnswer(rs: seq<Reply>, call: nat) {
    forall i :: 0 <= i < |rs| ==> rs[i].place == call
  }

  /** Where the answer to the awaited call is on connection `k`: counted, it is in one place. */
  ghost function Answers(c: Conn, k: nat, t: Thread, down: seq<Down>): nat {
    |down| + |Unanswered(c.accept)| + One(AnswerDue(t, k)) + One(HasCall(c.up))
  }

  ghost predicate PipeOk(cl: Client, mode: Mode, conns: seq<Conn>, t: Thread)
    requires cl.conn.Some? ==> cl.conn.value < |conns|
  {
    cl.conn.Some? ==>
      var k, call := cl.conn.value, ForCall(mode);
      var c := conns[k];
      var n := Answers(c, k, t, c.down) + One(HasCall(cl.queued));
      && (c.accept.Greeted? || c.accept.Handed? || c.accept.Closed?)
      && AllAnswer(c.down, call) && RepliesAnswer(Unanswered(c.accept), call)
      && ThreadAnswers(t, k, call) && OnlyCall(c.up, call)
      && n <= 1
      && (call == 0 ==> n == 0)
      && (call != 0 && !c.cut ==> n == 1)
  }

  /** What the handshake advises agrees with whether the reply is on its way. */
  ghost predicate AdviceOk(lastReq: nat, answers: nat, call: nat, cut: bool) {
    if call != 0 && lastReq >= call then answers <= 1 && (!cut ==> answers == 1) else answers == 0
  }

  /** A call the handshake does not count as completed is still held to be sent again. */
  ghost predicate ResendOk(cl: Client, lastReq: nat, call: nat) {
    call != 0 && lastReq < call ==> Holds(cl.unacked, call)
  }

  /** The connection the client is shaking hands on. */
  ghost predicate ShakeOk(cl: Client, mode: Mode, conns: seq<Conn>, t: Thread)
    requires mode.Shaking? ==> mode.k < |conns|
  {
    mode.Shaking? ==>
      var k, call := mode.k, mode.forCall;
      var c := conns[k];
      && c.up == [] && c.helloLast == cl.lastReply
      && !AnswerDue(t, k)
      && RepliesAnswer(Unanswered(c.accept), call)
      && (c.accept.Snapped? ==> ResendOk(cl, c.accept.lastReq, call))
      && (c.down != [] && c.down[0].Hello? && c.down[0].resumed ==> ResendOk(cl, c.down[0].lastReq, call))
      && match c.accept
         case Unread => c.down == []
         case Found(_) => c.down == []
         case Snapped(_, lastReq, u) => c.down == [] && AdviceOk(lastReq, |u|, call, c.cut)
         case _ => GreetingOk(c, k, call, t)
  }

  ghost predicate GreetingOk(c: Conn, k: nat, call: nat, t: Thread) {
    if c.down == [] then c.cut
    else if c.down[0].Hello? && c.down[0].resumed then
      && AllAnswer(c.down[1..], call)
      && AdviceOk(c.down[0].lastReq, Answers(c, k, t, c.down[1..]), call, c.cut)
    else k == 0 ==> Answers(c, k, t, c.down[1..]) == 0
  }

  // --- nothing is skipped ---------------------------------------------------------------

  /** Request `m` has run, or been passed over because the client gave it up. */
  ghost predicate Settled(m: nat, done: nat, abandoned: set<nat>) {
    m <= done || m in abandoned
  }

  ghost predicate NoGap(ex: seq<Exec>, abandoned: set<nat>) {
    forall m :: 1 <= m <= LastRun(ex) ==> Executed(ex, m) || m in abandoned
  }

  /** Before any frame on the connection comes every request it depends on. */
  ghost predicate UpCovered(up: seq<Frame>, done: nat, abandoned: set<nat>) {
    forall i, m :: 0 <= i < |up| && 1 <= m < up[i].place ==> Settled(m, done, abandoned) || Holds(up[..i], m)
  }

  /** Every request up to `minted` has run, was given up, or is one of `fs`. */
  ghost predicate AllCovered(fs: seq<Frame>, minted: nat, done: nat, abandoned: set<nat>) {
    forall m :: 1 <= m <= minted ==> Settled(m, done, abandoned) || Holds(fs, m)
  }

  ghost predicate CoverOk(c: Client, conns: seq<Conn>, h: History)
    requires c.conn.Some? ==> c.conn.value < |conns|
  {
    !h.gapped ==>
      var done := LastRun(h.executed);
      && NoGap(h.executed, h.abandoned)
      && (forall k :: 0 <= k < |conns| ==> UpCovered(conns[k].up, done, h.abandoned))
      && (c.replayPossible && !c.sessionGone ==> AllCovered(c.unacked, c.minted, done, h.abandoned))
      && (c.conn.Some? && !conns[c.conn.value].cut ==>
            AllCovered(conns[c.conn.value].up + c.queued, c.minted, done, h.abandoned))
  }

  ghost predicate Inv(s: State) {
    && Indexed(s)
    && HeldOk(s.c)
    && ModeOk(s.c, s.mode, s.h.calls, |s.conns|)
    && ClientOk(s.c, ForCall(s.mode), s.h.calls)
    && CallHeld(s.c, ForCall(s.mode), s.sess.lastReq)
    && SessionOk(s.c, s.mode, s.conns, s.sess, s.h)
    && ExecOk(s.sess, s.h, s.c.minted)
    && ConnsOk(s.c, s.conns, s.h, s.sess.lastReq)
    && PipeOk(s.c, s.mode, s.conns, s.sess.thread)
    && ShakeOk(s.c, s.mode, s.conns, s.sess.thread)
    && CoverOk(s.c, s.conns, s.h)
  }

  /** The place is within the window of the newest request, or is no request. */
  ghost predicate Near(s: State, m: nat) {
    m == 0 || s.c.minted - m < WINDOW
  }

  ghost predicate NearFrames(s: State, fs: seq<Frame>) {
    forall i :: 0 <= i < |fs| ==> Near(s, fs[i].place)
  }

  /** Giving a call up compares it with the last frame held. */
  ghost predicate NearBack(s: State) {
    s.c.unacked != [] ==> Near(s, s.c.unacked[|s.c.unacked| - 1].place)
  }

  /**
    The hypothesis of the 32-bit layer: the request numbers this step compares lie within the
    window of the newest one. A step that compares none has no hypothesis.
   */
  ghost predicate Window(s: State, step: Step)
    requires Enabled(s, step)
  {
    match step
    case FlushCall(ok, _) => ok || s.mode.attempt == 0 || NearBack(s)
    case Receive => NearFrames(s, s.c.unacked)
    case ReceiveFails => s.mode.attempt == 0 || NearBack(s)
    case GiveUp(_) => NearBack(s)
    case HandshakeDone(_, _) =>
      var d := s.conns[s.mode.k].down[0];
      d.Hello? && d.resumed ==> NearFrames(s, s.c.unacked) && Near(s, d.lastReq)
    case Snapshot(k) => Near(s, s.sess.lastReplyId) && Near(s, s.conns[k].helloLast)
    case Read(_) =>
      && Near(s, s.sess.lastReq) && Near(s, s.sess.lastReplyId)
      && Near(s, s.conns[s.sess.thread.k].up[0].place)
    case _ => true
  }

  /** A client that has minted fewer than 2^31 - 1 requests is always within it. */
  lemma WindowHolds(s: State, step: Step)
    requires Enabled(s, step) && s.c.minted < WINDOW
    ensures Window(s, step)
  {
  }

  lemma InitOk()
    ensures Inv(Init)
  {
  }
}
