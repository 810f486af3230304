/**
  The client's globals and its locked operations on them (client/rpc.cpp), with ids as the 32-bit
  numbers and frames as the bytes the program keeps. `model` is the state of `ClientState` the
  fields stand for, and every operation is the operation of that name there.
 */
module RpcClient {
  import opened Wrappers
  import opened ReqIds
  import opened Wire
  import opened Bytes
  import opened Sockets
  import C = ClientState

  /** What is kept of a frame in case it has to be sent again. */
  datatype SentFrame = SentFrame(reqId: Id, bytes: seq<Byte>)

  ghost function Sent(encode: WireFrame -> seq<Byte>, fs: seq<Frame>): (u: seq<SentFrame>)
    ensures |u| == |fs|
  {
    seq(|fs|, i requires 0 <= i < |fs| => SentFrame(WireId(fs[i].place), Written(encode, OnWire(fs[i]))))
  }

  /** The queue and the replay buffer, as bytes, stand for the model's frames. */
  ghost predicate Buffers(encode: WireFrame -> seq<Byte>, m: C.Client,
                          queued: seq<Byte>, unacked: seq<SentFrame>, unackedBytes: nat) {
    && queued == EncodeAll(encode, m.queued)
    && unacked == Sent(encode, m.unacked)
    && unackedBytes == m.unackedBytes == TotalSize(m.unacked)
  }

  /** A frame is as long as its header and its payload. */
  ghost predicate Sized(encode: WireFrame -> seq<Byte>) {
    forall w :: |Written(encode, w)| == REQ_HEADER_BYTES + |w.payload|
  }

  /** The program's own encoding is such a one. */
  lemma EncodeFrameSized()
    ensures Sized(EncodeFrame)
  {
    assert forall w :: Written(EncodeFrame, w) == EncodeFrame(w);
  }

  /** The client as the program starts. */
  method Start() returns (c: Client)
    ensures fresh(c) && c.Valid() && c.model == C.Fresh && c.encode == EncodeFrame
  {
    EncodeFrameSized();
    c := new Client(EncodeFrame);
  }

  class Client {
    // How a frame is written; EncodeFrame in the program.
    const encode: WireFrame -> seq<Byte>
    var fd: Option<nat>
    var nextReq: Id
    var connectFailed: bool
    var hadSession: bool
    var sessionGone: bool
    var lastReply: Id
    var queued: seq<Byte>
    var unacked: seq<SentFrame>
    var unackedBytes: nat
    var replayPossible: bool
    ghost var model: C.Client

    ghost predicate Valid()
      reads this
    {
      && fd == model.conn
      && nextReq == CounterAfter(model.minted)
      && connectFailed == model.connectFailed && hadSession == model.hadSession && sessionGone == model.sessionGone
      && lastReply == WireId(model.lastReply)
      && Sized(encode) && Buffers(encode, model, queued, unacked, unackedBytes)
      && replayPossible == model.replayPossible
    }

    constructor (encode: WireFrame -> seq<Byte>)
      requires Sized(encode)
      ensures Valid() && model == C.Fresh && this.encode == encode
    {
      this.encode := encode;
      fd, nextReq, lastReply := None, 1, 0;
      connectFailed, hadSession, sessionGone := false, false, false;
      queued, unacked, unackedBytes, replayPossible := [], [], 0, true;
      model := C.Fresh;
    }

    /** queue_one_locked. */
    method QueueOne(api: Word, payload: seq<Byte>, noReply: bool, thread: Word) returns (id: Id)
      requires Valid()
      modifies this`nextReq, this`queued, this`unacked, this`unackedBytes, this`replayPossible, this`model
      ensures Valid()
      ensures var f := Frame(old(model.minted) + 1, api, noReply, thread, payload);
              model == C.QueueOne(old(model), f) && id == WireId(f.place)
    {
      hide Buffers, Sized, Written, WireId, CounterAfter, C.QueueOne;
      id, nextReq := Mint(nextReq, model.minted);
      var bytes := Written(encode, WireFrame(id, api, noReply, thread, payload));
      ghost var f := Frame(model.minted + 1, api, noReply, thread, payload);
      queued, unacked, unackedBytes, replayPossible :=
        Hold(encode, model, f, id, bytes, queued, unacked, unackedBytes, replayPossible);
      model := C.QueueOne(model, f);
    }

    /** forget_acked_locked. */
    method ForgetAcked(upTo: Id, ghost place: nat)
      requires Valid() && upTo == WireId(place)
      modifies this`unacked, this`unackedBytes, this`model
      ensures Valid() && model == C.ForgetAcked(old(model), place)
    {
      hide Sent, TotalSize, WireId, EncodeAll, C.AckedCount;
      unacked, unackedBytes := DropAcked(encode, model.unacked, unacked, unackedBytes, upTo, place);
      model := C.ForgetAcked(model, place);
    }

    /** abandon_call_locked. */
    method AbandonCall(reqId: Id, ghost call: nat)
      requires Valid() && reqId == WireId(call)
      modifies this`unacked, this`unackedBytes, this`lastReply, this`fd, this`model
      ensures Valid() && model == C.Abandon(old(model), call)
    {
      hide Sent, TotalSize, WireId, EncodeAll, C.WithoutLast;
      unacked, unackedBytes := DropCall(encode, model.unacked, unacked, unackedBytes, reqId, call);
      lastReply := reqId;
      fd := None;
      model := C.Abandon(model, call);
    }

    /** flush_locked: one write of everything queued. */
    method Flush(s: Socket) returns (ok: bool)
      requires Valid()
      modifies this`queued, this`fd, this`model, s`outgoing, s`interrupts, s`failed
      ensures Valid()
      ensures old(fd).None? ==> !ok && model == old(model) && s.outgoing == old(s.outgoing)
      ensures old(fd).Some? ==>
        model == old(model).(queued := [], conn := if ok then old(model).conn else None)
      ensures ok ==> s.outgoing == old(s.outgoing) + EncodeAll(encode, old(model.queued))
      ensures !ok ==> old(s.outgoing) <= s.outgoing <= old(s.outgoing) + EncodeAll(encode, old(model.queued))
    {
      if fd.None? {
        return false;
      }
      if queued == [] {
        EmptyQueue(encode, model.queued);
        return true;
      }
      ok := WriteExact(s, queued);
      queued := [];
      model := model.(queued := []);
      if !ok {
        fd := None;
        model := model.(conn := None);
      }
    }

    /** The session is gone: the rest of ensure_connected_locked when it is told so. */
    method LoseSession()
      requires Valid()
      modifies this
      ensures Valid() && model == C.LoseSession(old(model))
    {
      sessionGone, connectFailed := true, true;
      queued, unacked, unackedBytes := [], [], 0;
      model := C.LoseSession(model);
    }

    /** A reply has been read and is the one waited for. */
    method TakeReply(reqId: Id, ghost call: nat)
      requires Valid() && reqId == WireId(call)
      modifies this
      ensures Valid() && model == C.TakeReply(old(model), call)
    {
      lastReply := reqId;
      model := model.(lastReply := call);
      ForgetAcked(reqId, call);
    }

    /**
      The end of ensure_connected_locked: the connection is taken up, and on a resume every frame
      the session has not completed is written again, in order, until a write fails.
     */
    method Attach(k: nat, s: Socket, resumed: bool, lastReq: Id, ghost place: nat) returns (ok: bool)
      requires Valid() && lastReq == WireId(place)
      modifies this, s`outgoing, s`interrupts, s`failed
      ensures Valid()
      ensures var a := C.Attach(old(model), k, resumed, place);
              && model == (if ok then a else a.(conn := None))
              && (ok ==> s.outgoing == old(s.outgoing) + if resumed then EncodeAll(encode, a.unacked) else [])
              && (!ok ==> old(s.outgoing) <= s.outgoing <= old(s.outgoing) + EncodeAll(encode, a.unacked))
    {
      hide Sent, TotalSize, WireId, EncodeAll, C.AckedCount;
      fd, hadSession := Some(k), true;
      model := model.(conn := Some(k), hadSession := true);
      if !resumed {
        return true;
      }
      ForgetAcked(lastReq, place);
      EmptyQueue(encode, []);
      queued := [];
      model := model.(queued := []);
      ok := Resend(s);
    }

    /** Writes every held frame, in order, until a write fails. */
    method Resend(s: Socket) returns (ok: bool)
      requires Valid() && fd.Some?
      modifies this`fd, this`model, s`outgoing, s`interrupts, s`failed
      ensures Valid() && model == if ok then old(model) else old(model).(conn := None)
      ensures ok ==> s.outgoing == old(s.outgoing) + EncodeAll(encode, model.unacked)
      ensures !ok ==> old(s.outgoing) <= s.outgoing <= old(s.outgoing) + EncodeAll(encode, model.unacked)
    {
      hide TotalSize, WireId, EncodeAll;
      ghost var frames := model.unacked;
      EmptyQueue(encode, frames[..0]);
      for i := 0 to |unacked|
        invariant model == old(model) && Valid()
        invariant s.outgoing == old(s.outgoing) + EncodeAll(encode, frames[..i])
      {
        EncodeNext(encode, frames, i);
        ghost var before := s.outgoing;
        ok := WriteExact(s, unacked[i].bytes);
        if !ok {
          assert before + Written(encode, OnWire(frames[i])) == old(s.outgoing) + EncodeAll(encode, frames[..i + 1]);
          fd := None;
          model := model.(conn := None);
          return;
        }
      }
      assert frames[..|frames|] == frames;
      return true;
    }
  }

  /** The buffers' part of queueing: the bytes go out with the next flush, and are held while replay is possible. */
  method Hold(encode: WireFrame -> seq<Byte>, ghost m: C.Client, ghost f: Frame, id: Id, bytes: seq<Byte>,
              queued: seq<Byte>, unacked: seq<SentFrame>, unackedBytes: nat, replayPossible: bool)
    returns (q: seq<Byte>, u: seq<SentFrame>, n: nat, possible: bool)
    requires Sized(encode) && Buffers(encode, m, queued, unacked, unackedBytes)
    requires replayPossible == m.replayPossible && f.place == m.minted + 1
    requires id == WireId(f.place) && bytes == Written(encode, OnWire(f))
    ensures Buffers(encode, C.QueueOne(m, f), q, u, n) && possible == C.QueueOne(m, f).replayPossible
  {
    QueueBuffers(encode, m, f, queued, unacked, unackedBytes);
    q, u, n, possible := queued + bytes, unacked, unackedBytes, replayPossible;
    if replayPossible {
      n, u := unackedBytes + |bytes|, unacked + [SentFrame(id, bytes)];
      if n > C.MAX_UNACKED_BYTES {
        possible, u, n := false, [], 0;
      }
    }
  }

  /** The loop of forget_acked_locked. */
  method DropAcked(encode: WireFrame -> seq<Byte>, ghost fs: seq<Frame>, unacked: seq<SentFrame>, unackedBytes: nat,
                   upTo: Id, ghost place: nat)
    returns (u: seq<SentFrame>, n: nat)
    requires Sized(encode) && upTo == WireId(place)
    requires unacked == Sent(encode, fs) && unackedBytes == TotalSize(fs)
    ensures var kept := fs[C.AckedCount(fs, place)..]; u == Sent(encode, kept) && n == TotalSize(kept)
  {
    u, n := unacked, unackedBytes;
    ghost var left := fs;
    while u != [] && AtOrBefore(u[0].reqId, upTo)
      invariant u == Sent(encode, left) && n == TotalSize(left)
      invariant left[C.AckedCount(left, place)..] == fs[C.AckedCount(fs, place)..]
      decreases |u|
    {
      SentFront(encode, left);
      AckedFront(left, place);
      n := n - |u[0].bytes|;
      u := u[1..];
      left := left[1..];
    }
    assert C.AckedCount(left, place) == 0;
  }

  lemma AckedFront(fs: seq<Frame>, place: nat)
    requires fs != [] && AtOrBefore(WireId(fs[0].place), WireId(place))
    ensures fs[C.AckedCount(fs, place)..] == fs[1..][C.AckedCount(fs[1..], place)..]
  {
  }

  /** The frame of the call given up, if it is still the last one held. */
  method DropCall(encode: WireFrame -> seq<Byte>, ghost fs: seq<Frame>, unacked: seq<SentFrame>, unackedBytes: nat,
                  reqId: Id, ghost call: nat)
    returns (u: seq<SentFrame>, n: nat)
    requires Sized(encode) && reqId == WireId(call)
    requires unacked == Sent(encode, fs) && unackedBytes == TotalSize(fs)
    ensures var kept := C.WithoutLast(fs, call); u == Sent(encode, kept) && n == TotalSize(kept)
  {
    SentBack(encode, fs);
    u, n := unacked, unackedBytes;
    if u != [] && u[|u| - 1].reqId == reqId {
      n := n - |u[|u| - 1].bytes|;
      u := u[..|u| - 1];
    }
  }

  lemma QueueBuffers(encode: WireFrame -> seq<Byte>, m: C.Client, f: Frame,
                     queued: seq<Byte>, unacked: seq<SentFrame>, unackedBytes: nat)
    requires Sized(encode) && Buffers(encode, m, queued, unacked, unackedBytes) && f.place == m.minted + 1
    ensures var m', bytes := C.QueueOne(m, f), Written(encode, OnWire(f));
            if !m.replayPossible then Buffers(encode, m', queued + bytes, unacked, unackedBytes)
            else if unackedBytes + |bytes| > C.MAX_UNACKED_BYTES then Buffers(encode, m', queued + bytes, [], 0)
            else Buffers(encode, m', queued + bytes, unacked + [SentFrame(WireId(f.place), bytes)],
                         unackedBytes + |bytes|)
  {
    EncodeJoin(encode, m.queued, [f]);
    EncodeOne(encode, f);
    TotalSizeAppend(m.unacked, f);
    assert Sent(encode, m.unacked + [f])
        == Sent(encode, m.unacked) + [SentFrame(WireId(f.place), Written(encode, OnWire(f)))];
  }

  lemma SentFront(encode: WireFrame -> seq<Byte>, fs: seq<Frame>)
    requires Sized(encode)
    ensures fs != [] ==>
      var s := Sent(encode, fs);
      && s[1..] == Sent(encode, fs[1..]) && s[0].reqId == WireId(fs[0].place)
      && TotalSize(fs) == |s[0].bytes| + TotalSize(fs[1..])
  {
    if fs != [] {
      TotalSizeFront(fs);
      assert |Written(encode, OnWire(fs[0]))| == Size(fs[0]);
    }
  }

  lemma SentBack(encode: WireFrame -> seq<Byte>, fs: seq<Frame>)
    requires Sized(encode)
    ensures fs != [] ==>
      var s, last := Sent(encode, fs), |fs| - 1;
      && s[..last] == Sent(encode, fs[..last]) && s[last].reqId == WireId(fs[last].place)
      && TotalSize(fs) == TotalSize(fs[..last]) + |s[last].bytes|
  {
  }

  /** No bytes queued means no frames queued: every frame has a header. */
  lemma EmptyQueue(encode: WireFrame -> seq<Byte>, fs: seq<Frame>)
    requires Sized(encode)
    ensures EncodeAll(encode, fs) == [] <==> fs == []
  {
    if fs != [] {
      EncodeNext(encode, fs, |fs| - 1);
      assert fs[..|fs|] == fs;
    }
  }
}
