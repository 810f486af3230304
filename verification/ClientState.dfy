/**
  What the client remembers between calls, and what each locked operation does to it
  (client/rpc.cpp). The operations are functions of the state; `RpcClient` carries them out on
  its fields, and `Protocol` interleaves them with the server and the network.
 */
module ClientState {
  import opened Wrappers
  import opened ReqIds
  import opened Wire

  // kMaxUnackedBytes
  const MAX_UNACKED_BYTES: nat := 67_108_864

  datatype Client = Client(
    minted: nat,               // how many request ids have been handed out
    conn: Option<nat>,         // g_fd: the connection in use
    lastReply: nat,            // g_last_reply, as a place; 0: none
    hadSession: bool,
    sessionGone: bool,
    connectFailed: bool,
    queued: seq<Frame>,        // g_queued, frame by frame
    unacked: seq<Frame>,       // g_unacked
    unackedBytes: nat,
    replayPossible: bool)

  const Fresh: Client := Client(0, None, 0, false, false, false, [], [], 0, true)

  /** queue_one_locked: the frame is queued to be written, and held while replay is possible. */
  function QueueOne(c: Client, f: Frame): (r: Client)
    requires f.place == c.minted + 1
    ensures r.minted == f.place && r.queued == c.queued + [f] && r.conn == c.conn && r.lastReply == c.lastReply
    ensures r.hadSession == c.hadSession && r.sessionGone == c.sessionGone && r.connectFailed == c.connectFailed
  {
    var q := c.(minted := f.place, queued := c.queued + [f]);
    if !c.replayPossible then q
    else if c.unackedBytes + Size(f) > MAX_UNACKED_BYTES then
      q.(unacked := [], unackedBytes := 0, replayPossible := false)
    else
      q.(unacked := c.unacked + [f], unackedBytes := c.unackedBytes + Size(f))
  }

  /** How many frames at the front are at or before `upTo` in the order of ids. */
  function AckedCount(fs: seq<Frame>, upTo: nat): (k: nat)
    ensures k <= |fs|
    ensures forall i :: 0 <= i < k ==> AtOrBefore(WireId(fs[i].place), WireId(upTo))
    ensures k < |fs| ==> !AtOrBefore(WireId(fs[k].place), WireId(upTo))
  {
    if fs == [] || !AtOrBefore(WireId(fs[0].place), WireId(upTo)) then 0
    else 1 + AckedCount(fs[1..], upTo)
  }

  /** forget_acked_locked. */
  function ForgetAcked(c: Client, upTo: nat): (r: Client) {
    var kept := c.unacked[AckedCount(c.unacked, upTo)..];
    c.(unacked := kept, unackedBytes := TotalSize(kept))
  }

  /** The frames held once the last of them, if it is the call's, is dropped. */
  function WithoutLast(u: seq<Frame>, call: nat): (kept: seq<Frame>) {
    if u != [] && WireId(u[|u| - 1].place) == WireId(call) then u[..|u| - 1] else u
  }

  /** abandon_call_locked: the call is given up for good and its reply no longer wanted. */
  function Abandon(c: Client, call: nat): (r: Client) {
    var kept := WithoutLast(c.unacked, call);
    c.(unacked := kept, unackedBytes := TotalSize(kept), lastReply := call, conn := None)
  }

  /** A reply arrived: everything up to it is known to have run. */
  function TakeReply(c: Client, call: nat): (r: Client) {
    ForgetAcked(c.(lastReply := call), call)
  }

  /** The server said it no longer has the session; nothing is sent again. */
  function LoseSession(c: Client): (r: Client) {
    c.(sessionGone := true, connectFailed := true, queued := [], unacked := [], unackedBytes := 0)
  }

  /** A handshake was answered on connection `k`; on a resume, what is left to send again. */
  function Attach(c: Client, k: nat, resumed: bool, lastReq: nat): (r: Client) {
    var a := c.(conn := Some(k), hadSession := true);
    if resumed then ForgetAcked(a, lastReq).(queued := []) else a
  }

  /** The bookkeeping the held frames always satisfy. */
  ghost predicate HeldOk(c: Client) {
    && c.unackedBytes == TotalSize(c.unacked)
    && c.unackedBytes <= MAX_UNACKED_BYTES
    && (!c.replayPossible ==> c.unacked == [])
    && (c.replayPossible ==> IsSuffix(c.queued, c.unacked))
  }

  /** At most 2,796,202 frames are ever held for replay. */
  lemma HeldFramesCap(c: Client)
    requires HeldOk(c)
    ensures |c.unacked| <= 2_796_202
  {
    HeldFramesBound(c.unacked);
  }

  lemma QueueOneKeepsHeld(c: Client, f: Frame)
    requires HeldOk(c) && f.place == c.minted + 1
    ensures HeldOk(QueueOne(c, f))
  {
    TotalSizeAppend(c.unacked, f);
    if c.replayPossible {
      var u, q := c.unacked + [f], c.queued + [f];
      assert u[|u| - |q|..] == c.unacked[|c.unacked| - |c.queued|..] + [f];
    }
  }

  /** Replay is given up at the frame that takes what is held past 64 MiB, headers included, and not before. */
  lemma ReplayLostExactly(c: Client, f: Frame)
    requires HeldOk(c) && f.place == c.minted + 1
    ensures QueueOne(c, f).replayPossible <==>
      c.replayPossible && TotalSize(c.unacked) + 24 + |f.payload| <= 64 * 1024 * 1024
    ensures QueueOne(c, f).unacked == if QueueOne(c, f).replayPossible then c.unacked + [f] else []
  {
  }

  lemma {:induction false} TotalSizeDrop(fs: seq<Frame>, k: nat)
    requires k <= |fs|
    ensures TotalSize(fs[k..]) <= TotalSize(fs)
  {
    if k > 0 {
      TotalSizeFront(fs);
      assert fs[1..][k - 1..] == fs[k..];
      TotalSizeDrop(fs[1..], k - 1);
    } else {
      assert fs[0..] == fs;
    }
  }

  lemma ForgetKeepsHeld(c: Client, upTo: nat)
    requires HeldOk(c.(queued := []))
    ensures HeldOk(ForgetAcked(c, upTo).(queued := []))
  {
    TotalSizeDrop(c.unacked, AckedCount(c.unacked, upTo));
  }

  lemma AbandonKeepsHeld(c: Client, call: nat)
    requires HeldOk(c) && c.queued == []
    ensures HeldOk(Abandon(c, call))
  {
  }
}
