/**
  The replayable session protocol as one machine: a client process, the session the server keeps
  for it, the accept threads and the serving thread, and the connections between them
  (client/rpc.cpp, server/main.cpp).

  A step is one region executed under a lock, one read or write of a socket, or one thing the
  network does. Everything the program does not decide is a parameter of the step: whether a
  write failed and after how many frames, what a request answered, when a connection is lost,
  when a wait runs out. Requests are named by their place in the mint order, and every
  comparison the program makes is made on the 32-bit ids.
 */
module Protocol {
  import opened Wrappers
  import opened ReqIds
  import opened Wire
  import opened ClientState

  /** What a request came to: its CUresult, as 32 bits, and the bytes it returns. */
  datatype Result = Result(code: Word, payload: seq<Byte>)

  /** A reply frame: the request it answers and what that came to. */
  datatype Reply = Reply(place: nat, result: Result)

  datatype Down =
    | Hello(resumed: bool, lastReq: nat)   // HandshakeReply
    | Busy                                 // HandshakeReply with kMagicBusy
    | Response(reply: Reply)

  /** How far the accept thread of a connection has got. */
  datatype Accept =
    | Unread                                                        // handshake not read yet
    | Found(resumed: bool)                                          // session looked up
    | Snapped(resumed: bool, lastReq: nat, unanswered: seq<Reply>)  // reply prepared
    | Greeted(unanswered: seq<Reply>, isNew: bool)                  // handshake reply written
    | Handed                                                        // the session's from here
    | Closed

  /**
    One connection. `up` and `down` are what has been written and not yet read; once it is `cut`
    nothing written reaches the other end. `sent` is every frame the client ever wrote to it.
   */
  datatype Conn = Conn(
    resuming: bool,      // kHelloResuming
    helloLast: nat,      // Handshake::last_req_id, as a place
    accept: Accept,
    up: seq<Frame>,
    down: seq<Down>,
    cut: bool,
    sent: seq<Frame>)

  datatype Thread =
    | Unstarted
    | Looking                                          // waiting for a connection
    | Serving(k: nat)
    | Running(k: nat, frame: Frame, result: Result)       // dispatched, not yet recorded
    | Sending(k: nat, reply: Reply)                    // recorded, reply not yet written
    | Ended

  datatype Session = Session(
    listed: bool,          // in g_sessions
    finished: bool,
    lastReq: nat,
    lastReplyId: nat,
    lastReply: Reply,
    pending: Option<nat>,  // pending_fd
    thread: Thread)

  const NoSession: Session := Session(false, false, 0, 0, Reply(0, Result(0, [])), None, Unstarted)
  const NewSession: Session := NoSession.(listed := true)

  /** What the one thread holding the client's lock is in the middle of. */
  datatype Mode =
    | Idle
    | Flushing(call: nat, attempt: nat)   // call(): about to write the queue
    | Waiting(call: nat, attempt: nat)    // call(): reading the reply
    | Reconnecting(call: nat)             // call(): in reconnect_locked
    | Shaking(k: nat, forCall: nat)       // handshake written; forCall 0: not inside a call

  datatype Exec = Exec(place: nat, result: Result, session: nat)

  /** What happened, for the theorems; the program keeps none of it. */
  datatype History = History(
    calls: set<nat>,          // requests that want a reply
    abandoned: set<nat>,      // calls given up without one
    executed: seq<Exec>,      // requests dispatched, in order
    received: seq<Reply>,     // replies call() returned, in order
    gapped: bool,             // the client resumed after replay had become impossible
    sessions: nat)            // sessions created

  datatype State = State(c: Client, mode: Mode, sess: Session, conns: seq<Conn>, h: History)

  const Init: State := State(Fresh, Idle, NoSession, [], History({}, {}, [], [], false, 0))

  datatype Step =
    | QueueOneWay(frame: Frame)
    | FlushIdle(ok: bool, count: nat)
    | BeginCall(frame: Frame)
    | FlushCall(ok: bool, count: nat)
    | Receive
    | ReceiveFails
    | GiveUp(deadline: bool)
    | Unreachable
    | Open
    | HandshakeFails
    | HandshakeDone(ok: bool, count: nat)
    | Lookup(k: nat, full: bool)
    | Snapshot(k: nat)
    | Greet(k: nat, ok: bool)
    | SendUnanswered(k: nat, ok: bool)
    | HandOver(k: nat)
    | Take
    | Expire
    | Erase
    | Read(result: Result)
    | Complete
    | Send
    | Break
    | Lose(k: nat, ups: nat, downs: nat)

  // --- connections --------------------------------------------------------------------

  /** The client writes `fs`; they arrive unless the connection is cut. */
  function WriteUp(c: Conn, fs: seq<Frame>): Conn {
    c.(up := if c.cut then c.up else c.up + fs, sent := c.sent + fs)
  }

  function WriteDown(c: Conn, d: Down): Conn {
    c.(down := if c.cut then c.down else c.down + [d])
  }

  function Shut(c: Conn): Conn {
    c.(accept := Closed, up := [], cut := true)
  }

  function SetConn(s: State, k: nat, c: Conn): State
    requires k < |s.conns|
  {
    s.(conns := s.conns[k := c])
  }

  /** Closes the connection in the pending slot, if there is one. */
  function ShutPending(s: State): State
    requires s.sess.pending.Some? ==> s.sess.pending.value < |s.conns|
  {
    if s.sess.pending.None? then s
    else SetConn(s, s.sess.pending.value, Shut(s.conns[s.sess.pending.value]))
  }

  // --- the client ---------------------------------------------------------------------

  function ForCall(m: Mode): nat {
    match m
    case Idle => 0
    case Flushing(call, _) => call
    case Waiting(call, _) => call
    case Reconnecting(call) => call
    case Shaking(_, call) => call
  }

  function AfterFailedConnect(call: nat): Mode {
    if call == 0 then Idle else Reconnecting(call)
  }

  /** drop_connection_locked on connection `k`. */
  function DropConn(s: State, k: nat): State
    requires k < |s.conns|
  {
    SetConn(s, k, s.conns[k].(cut := true)).(c := s.c.(conn := None))
  }

  function AbandonCall(s: State, call: nat): State {
    s.(c := Abandon(s.c, call), mode := Idle, h := s.h.(abandoned := s.h.abandoned + {call}))
  }

  /** call(): the connection broke; the first time it is reached again, the second it is over. */
  function CallBroke(s: State, call: nat, attempt: nat): State {
    if attempt == 0 then s.(mode := Reconnecting(call)) else AbandonCall(s, call)
  }

  /** flush_locked on connection `k`. */
  function Flush(s: State, k: nat, ok: bool, count: nat): State
    requires k < |s.conns| && count <= |s.c.queued|
  {
    var t := SetConn(s, k, WriteUp(s.conns[k], if ok then s.c.queued else s.c.queued[..count]))
             .(c := s.c.(queued := []));
    if ok then t else DropConn(t, k)
  }

  /** The handshake was answered with `Hello(resumed, lastReq)`. */
  function Answered(s: State, k: nat, call: nat, resumed: bool, lastReq: nat, ok: bool, count: nat): State
    requires k < |s.conns| && s.conns[k].down != []
  {
    var read := SetConn(s, k, s.conns[k].(down := s.conns[k].down[1..]));
    if s.c.hadSession && !resumed then
      var gone := DropConn(read.(c := LoseSession(s.c)), k);
      if call == 0 then gone.(mode := Idle) else AbandonCall(gone, call)
    else
      var c := Attach(s.c, k, resumed, lastReq);
      var t := read.(c := c, h := s.h.(gapped := s.h.gapped || (resumed && !s.c.replayPossible)));
      var after := if call == 0 then Idle else Flushing(call, 1);
      if !resumed then t.(mode := after)
      else if ok then SetConn(t, k, WriteUp(t.conns[k], c.unacked)).(mode := after)
      else
        var part := if count <= |c.unacked| then c.unacked[..count] else c.unacked;
        DropConn(SetConn(t, k, WriteUp(t.conns[k], part)), k).(mode := AfterFailedConnect(call))
  }

  function HandshakeFailed(s: State, k: nat, call: nat): State
    requires k < |s.conns|
  {
    DropConn(s, k).(c := s.c.(conn := None, connectFailed := true), mode := AfterFailedConnect(call))
  }

  // --- steps --------------------------------------------------------------------------

  /** Indices the program gets right by construction: descriptors name connections. */
  predicate Indexed(s: State) {
    && (s.c.conn.Some? ==> s.c.conn.value < |s.conns|)
    && (s.mode.Shaking? ==> s.mode.k < |s.conns|)
    && (s.sess.pending.Some? ==> s.sess.pending.value < |s.conns|)
    && (s.sess.thread.Serving? || s.sess.thread.Running? || s.sess.thread.Sending? ==>
          s.sess.thread.k < |s.conns|)
  }

  predicate Enabled(s: State, step: Step) {
    && Indexed(s)
    && match step
       case QueueOneWay(f) => s.mode.Idle? && s.c.conn.Some? && f.place == s.c.minted + 1 && f.noReply
       case FlushIdle(ok, count) => s.mode.Idle? && s.c.conn.Some? && count <= |s.c.queued|
       case BeginCall(f) => s.mode.Idle? && s.c.conn.Some? && f.place == s.c.minted + 1 && !f.noReply
       case FlushCall(ok, count) => s.mode.Flushing? && s.c.conn.Some? && count <= |s.c.queued|
       case Receive => s.mode.Waiting? && s.c.conn.Some? && s.conns[s.c.conn.value].down != []
       case ReceiveFails => s.mode.Waiting? && s.c.conn.Some?
       case GiveUp(deadline) => s.mode.Reconnecting? && (deadline || !s.c.replayPossible)
       case Unreachable => CanConnect(s)
       case Open => CanConnect(s)
       case HandshakeFails => s.mode.Shaking?
       case HandshakeDone(ok, count) => s.mode.Shaking? && s.conns[s.mode.k].down != []
       case Lookup(k, full) => k < |s.conns| && s.conns[k].accept.Unread?
       case Snapshot(k) => k < |s.conns| && s.conns[k].accept.Found?
       case Greet(k, ok) => k < |s.conns| && s.conns[k].accept.Snapped?
       case SendUnanswered(k, ok) =>
         k < |s.conns| && s.conns[k].accept.Greeted? && s.conns[k].accept.unanswered != []
       case HandOver(k) =>
         k < |s.conns| && s.conns[k].accept.Greeted? && s.conns[k].accept.unanswered == []
       case Take => s.sess.thread.Looking? && s.sess.pending.Some?
       case Expire => s.sess.thread.Looking? && s.sess.pending.None?
       case Erase => s.sess.thread.Ended?
       case Read(result) => s.sess.thread.Serving? && s.conns[s.sess.thread.k].up != []
       case Complete => s.sess.thread.Running?
       case Send => s.sess.thread.Sending?
       case Break => s.sess.thread.Serving?
       case Lose(k, ups, downs) =>
         k < |s.conns| && ups <= |s.conns[k].up| && downs <= |s.conns[k].down|
  }

  /** ensure_connected_locked would try: at the start of a call, or inside reconnect_locked. */
  predicate CanConnect(s: State) {
    || (s.mode.Idle? && s.c.conn.None? && !s.c.sessionGone && !s.c.connectFailed)
    || (s.mode.Reconnecting? && s.c.replayPossible)
  }

  function Apply(s: State, step: Step): State
    requires Enabled(s, step)
  {
    match step
    case QueueOneWay(f) => s.(c := QueueOne(s.c, f))
    case FlushIdle(ok, count) => Flush(s, s.c.conn.value, ok, count)
    case BeginCall(f) =>
      s.(c := QueueOne(s.c, f), mode := Flushing(f.place, 0), h := s.h.(calls := s.h.calls + {f.place}))
    case FlushCall(ok, count) =>
      var t := Flush(s, s.c.conn.value, ok, count);
      if ok then t.(mode := Waiting(s.mode.call, s.mode.attempt))
      else CallBroke(t, s.mode.call, s.mode.attempt)
    case Receive => ApplyReceive(s)
    case ReceiveFails => CallBroke(DropConn(s, s.c.conn.value), s.mode.call, s.mode.attempt)
    case GiveUp(deadline) =>
      AbandonCall(s.(c := s.c.(connectFailed := s.c.connectFailed || s.c.replayPossible)), s.mode.call)
    case Unreachable => s.(c := s.c.(connectFailed := true))
    case Open =>
      s.(c := s.c.(connectFailed := false),
         mode := Shaking(|s.conns|, ForCall(s.mode)),
         conns := s.conns + [Conn(s.c.hadSession, s.c.lastReply, Unread, [], [], false, [])])
    case HandshakeFails => HandshakeFailed(s, s.mode.k, s.mode.forCall)
    case HandshakeDone(ok, count) =>
      (match s.conns[s.mode.k].down[0]
       case Hello(resumed, lastReq) => Answered(s, s.mode.k, s.mode.forCall, resumed, lastReq, ok, count)
       case _ => HandshakeFailed(s, s.mode.k, s.mode.forCall))
    case Lookup(k, full) => ApplyLookup(s, k, full)
    case Snapshot(k) => ApplySnapshot(s, k)
    case Greet(k, ok) => ApplyGreet(s, k, ok)
    case SendUnanswered(k, ok) =>
      var c := s.conns[k];
      if ok then
        SetConn(s, k, WriteDown(c, Response(c.accept.unanswered[0]))
                      .(accept := Greeted(c.accept.unanswered[1..], c.accept.isNew)))
      else SetConn(s, k, Shut(c))
    case HandOver(k) => ApplyHandOver(s, k)
    case Take => s.(sess := s.sess.(thread := Serving(s.sess.pending.value), pending := None))
    case Expire => s.(sess := s.sess.(finished := true, thread := Ended))
    case Erase => s.(sess := s.sess.(listed := false))
    case Read(result) => ApplyRead(s, result)
    case Complete => ApplyComplete(s)
    case Send =>
      var Sending(k, reply) := s.sess.thread;
      SetConn(s, k, WriteDown(s.conns[k], Response(reply))).(sess := s.sess.(thread := Serving(k)))
    case Break =>
      SetConn(s, s.sess.thread.k, Shut(s.conns[s.sess.thread.k])).(sess := s.sess.(thread := Looking))
    case Lose(k, ups, downs) =>
      SetConn(s, k, s.conns[k].(up := s.conns[k].up[..ups], down := s.conns[k].down[..downs], cut := true))
  }

  /** call(): one frame has arrived. A reply to anything but this call ends the connection. */
  function ApplyReceive(s: State): State
    requires Indexed(s) && s.mode.Waiting? && s.c.conn.Some? && s.conns[s.c.conn.value].down != []
  {
    var k, call := s.c.conn.value, s.mode.call;
    var d := s.conns[k].down[0];
    if !d.Response? then CallBroke(DropConn(s, k), call, s.mode.attempt)
    else if WireId(d.reply.place) != WireId(call) then AbandonCall(DropConn(s, k), call)
    else
      SetConn(s, k, s.conns[k].(down := s.conns[k].down[1..]))
      .(c := TakeReply(s.c, call), mode := Idle, h := s.h.(received := s.h.received + [d.reply]))
  }

  /** accept_connection, under g_sessions_mu: find the session, make one, or refuse. */
  function ApplyLookup(s: State, k: nat, full: bool): State
    requires k < |s.conns|
  {
    var c := s.conns[k];
    if s.sess.listed && !s.sess.finished then
      SetConn(s, k, c.(accept := Found(true)))
    else if c.helloLast == 0 && !c.resuming then
      if full && !s.sess.listed then SetConn(s, k, Shut(WriteDown(c, Busy)))
      else
        SetConn(s, k, c.(accept := Found(false)))
        .(sess := NewSession, h := s.h.(sessions := s.h.sessions + 1))
    else SetConn(s, k, Shut(WriteDown(c, Hello(false, 0))))
  }

  /** What has completed and the reply the client never received, read together. */
  function ApplySnapshot(s: State, k: nat): State
    requires k < |s.conns| && s.conns[k].accept.Found?
  {
    var c := s.conns[k];
    var missing := c.accept.resumed && !AtOrBefore(WireId(s.sess.lastReplyId), WireId(c.helloLast));
    SetConn(s, k, c.(accept := Snapped(c.accept.resumed, s.sess.lastReq,
                                       if missing then [s.sess.lastReply] else [])))
  }

  function ApplyGreet(s: State, k: nat, ok: bool): State
    requires Indexed(s) && k < |s.conns| && s.conns[k].accept.Snapped?
  {
    var c := s.conns[k];
    var Snapped(resumed, lastReq, unanswered) := c.accept;
    if ok then
      SetConn(s, k, WriteDown(c, Hello(resumed, lastReq)).(accept := Greeted(unanswered, !resumed)))
    else if resumed then SetConn(s, k, Shut(c))
    else // forget_unserved
      var t := ShutPending(s);
      SetConn(t, k, Shut(t.conns[k])).(sess := s.sess.(listed := false, finished := true, pending := None))
  }

  /** The connection goes to the session, unless the session has finished meanwhile. */
  function ApplyHandOver(s: State, k: nat): State
    requires Indexed(s) && k < |s.conns| && s.conns[k].accept.Greeted?
  {
    if !s.conns[k].accept.isNew && s.sess.finished then SetConn(s, k, Shut(s.conns[k]))
    else
      var t := ShutPending(s);
      SetConn(t, k, t.conns[k].(accept := Handed))
      .(sess := s.sess.(pending := Some(k),
                        thread := if s.conns[k].accept.isNew then Looking else s.sess.thread))
  }

  /** serve(): one frame is read; a request that already ran is only answered. */
  function ApplyRead(s: State, result: Result): State
    requires Indexed(s) && s.sess.thread.Serving? && s.conns[s.sess.thread.k].up != []
  {
    var k := s.sess.thread.k;
    var f := s.conns[k].up[0];
    var c := s.conns[k].(up := s.conns[k].up[1..]);
    if AtOrBefore(WireId(f.place), WireId(s.sess.lastReq)) then
      var kept := !f.noReply && WireId(f.place) == WireId(s.sess.lastReplyId);
      SetConn(s, k, if kept then WriteDown(c, Response(s.sess.lastReply)) else c)
    else
      SetConn(s, k, c)
      .(sess := s.sess.(thread := Running(k, f, result)),
        h := s.h.(executed := s.h.executed + [Exec(f.place, result, s.h.sessions)]))
  }

  /** Completed, and its reply kept, in one hold of the session's lock. */
  function ApplyComplete(s: State): State
    requires s.sess.thread.Running?
  {
    var Running(k, f, result) := s.sess.thread;
    if f.noReply then s.(sess := s.sess.(lastReq := f.place, thread := Serving(k)))
    else
      var reply := Reply(f.place, result);
      s.(sess := s.sess.(lastReq := f.place, lastReplyId := f.place, lastReply := reply,
                         thread := Sending(k, reply)))
  }
}
