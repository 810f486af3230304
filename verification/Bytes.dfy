/** Little-endian integers and the request frame as bytes (common/wire.h). */
module Bytes {
  import opened ReqIds
  import opened Wire

  // kMagicReq, "RGQU"
  const MAGIC_REQ: Word := 0x5247_5155

  const WORD_BYTES: nat := 4

  function Pow256(n: nat): (p: nat)
    ensures p > 0
  {
    if n == 0 then 1 else 256 * Pow256(n - 1)
  }

  /** The low `n` bytes of `x`, least significant first. */
  function Little(x: nat, n: nat): (b: seq<Byte>)
    ensures |b| == n
  {
    if n == 0 then [] else [x % 256] + Little(x / 256, n - 1)
  }

  function FromLittle(b: seq<Byte>): (x: nat)
    ensures x < Pow256(|b|)
  {
    if b == [] then 0 else b[0] + 256 * FromLittle(b[1..])
  }

  lemma {:induction false} LittleInverse(x: nat, n: nat)
    requires x < Pow256(n)
    ensures FromLittle(Little(x, n)) == x
  {
    if n > 0 {
      LittleInverse(x / 256, n - 1);
      assert Little(x, n)[1..] == Little(x / 256, n - 1);
    }
  }

  /** Different bytes are different integers. */
  lemma {:induction false} LittleOnto(b: seq<Byte>)
    ensures Little(FromLittle(b), |b|) == b
  {
    if b != [] {
      LittleOnto(b[1..]);
    }
  }

  lemma Pow256Values()
    ensures Pow256(4) == ID_SPACE
    ensures Pow256(8) == 0x1_0000_0000_0000_0000
  {
    assert Pow256(1) == 256;
    assert Pow256(2) == 65536;
    assert Pow256(3) == 0x100_0000;
    assert Pow256(4) == ID_SPACE;
    assert Pow256(5) == 0x100_0000_0000;
    assert Pow256(6) == 0x1_0000_0000_0000;
    assert Pow256(7) == 0x100_0000_0000_0000;
  }

  /** ReqHeader without its magic: five 32-bit words. */
  datatype Header = Header(api: Word, reqId: Word, flags: Word, thread: Word, payloadLen: Word)

  function Word4(x: Word): (b: seq<Byte>)
    ensures |b| == 4
  {
    Little(x, WORD_BYTES)
  }

  function EncodeHeader(h: Header): (b: seq<Byte>)
    ensures |b| == REQ_HEADER_BYTES
  {
    Word4(MAGIC_REQ) + Word4(h.api) + Word4(h.reqId) + Word4(h.flags) + Word4(h.thread) + Word4(h.payloadLen)
  }

  function ReadWord(b: seq<Byte>, at: nat): (w: Word)
    requires at + 4 <= |b|
  {
    Pow256Values();
    FromLittle(b[at..at + 4])
  }

  function DecodeHeader(b: seq<Byte>): (h: Header)
    requires |b| >= REQ_HEADER_BYTES
  {
    Header(ReadWord(b, 4), ReadWord(b, 8), ReadWord(b, 12), ReadWord(b, 16), ReadWord(b, 20))
  }

  /** A header read back from the front of any stream is the one written. */
  lemma HeaderInverse(h: Header, rest: seq<Byte>)
    ensures DecodeHeader(EncodeHeader(h) + rest) == h
    ensures ReadWord(EncodeHeader(h) + rest, 0) == MAGIC_REQ
  {
    var m, a, r, f, t, l :=
      Word4(MAGIC_REQ), Word4(h.api), Word4(h.reqId), Word4(h.flags), Word4(h.thread), Word4(h.payloadLen);
    SixWords(m, a, r, f, t, l, rest);
    Pow256Values();
    LittleInverse(MAGIC_REQ, WORD_BYTES);
    LittleInverse(h.api, WORD_BYTES);
    LittleInverse(h.reqId, WORD_BYTES);
    LittleInverse(h.flags, WORD_BYTES);
    LittleInverse(h.thread, WORD_BYTES);
    LittleInverse(h.payloadLen, WORD_BYTES);
  }

  lemma SixWords(m: seq<Byte>, a: seq<Byte>, r: seq<Byte>, f: seq<Byte>, t: seq<Byte>, l: seq<Byte>, rest: seq<Byte>)
    requires |m| == |a| == |r| == |f| == |t| == |l| == 4
    ensures var b := m + a + r + f + t + l + rest;
            && b[0..4] == m && b[4..8] == a && b[8..12] == r
            && b[12..16] == f && b[16..20] == t && b[20..24] == l
  {
  }

  /** Where each field of ReqHeader is, byte by byte. */
  lemma HeaderLayout(h: Header)
    ensures var b := EncodeHeader(h);
            && |b| == 24 && b[0..4] == [0x55, 0x51, 0x47, 0x52]
            && FromLittle(b[4..8]) == h.api && FromLittle(b[8..12]) == h.reqId && FromLittle(b[12..16]) == h.flags
            && FromLittle(b[16..20]) == h.thread && FromLittle(b[20..24]) == h.payloadLen
  {
    SixWords(Word4(MAGIC_REQ), Word4(h.api), Word4(h.reqId), Word4(h.flags), Word4(h.thread), Word4(h.payloadLen), []);
    assert EncodeHeader(h) + [] == EncodeHeader(h);
    Pow256Values();
    LittleInverse(h.api, WORD_BYTES);
    LittleInverse(h.reqId, WORD_BYTES);
    LittleInverse(h.flags, WORD_BYTES);
    LittleInverse(h.thread, WORD_BYTES);
    LittleInverse(h.payloadLen, WORD_BYTES);
    assert Little(0x52, 1) == [0x52] && Little(0x5247, 2) == [0x47, 0x52] && Little(0x524751, 3) == [0x51, 0x47, 0x52];
  }

  /** The header queue_one_locked writes; the length is cast to 32 bits. */
  function HeaderOf(w: WireFrame): Header {
    Header(w.api, w.reqId, if w.noReply then 1 else 0, w.thread, |w.payload| % ID_SPACE)
  }

  function EncodeFrame(w: WireFrame): (b: seq<Byte>)
    ensures |b| == REQ_HEADER_BYTES + |w.payload|
  {
    EncodeHeader(HeaderOf(w)) + w.payload
  }

  function Joined<T>(parts: seq<seq<T>>): seq<T> {
    if parts == [] then [] else Joined(parts[..|parts| - 1]) + parts[|parts| - 1]
  }

  lemma {:induction false} JoinedAppend<T>(a: seq<seq<T>>, b: seq<seq<T>>)
    ensures Joined(a + b) == Joined(a) + Joined(b)
  {
    if b == [] {
      assert a + b == a;
    } else {
      var init, last := b[..|b| - 1], b[|b| - 1];
      JoinedAppend(a, init);
      assert (a + b)[..|a + b| - 1] == a + init;
      assert Joined(a) + Joined(init) + last == Joined(a) + (Joined(init) + last);
    }
  }

  /** The bytes `encode` makes of one frame. */
  function Written(encode: WireFrame -> seq<Byte>, w: WireFrame): seq<Byte> {
    encode(w)
  }

  /** The bytes of each frame, for any way to write one. */
  function Encoded(encode: WireFrame -> seq<Byte>, fs: seq<Frame>): (parts: seq<seq<Byte>>)
    ensures |parts| == |fs|
  {
    seq(|fs|, i requires 0 <= i < |fs| => Written(encode, OnWire(fs[i])))
  }

  /** The bytes of frames queued one behind another. */
  function EncodeAll(encode: WireFrame -> seq<Byte>, fs: seq<Frame>): (b: seq<Byte>) {
    Joined(Encoded(encode, fs))
  }

  lemma JoinedOne<T>(part: seq<T>)
    ensures Joined([part]) == part
  {
    var none: seq<seq<T>> := [];
    assert [part][..0] == none;
    assert Joined(none) + part == part;
  }

  lemma EncodeJoin(encode: WireFrame -> seq<Byte>, a: seq<Frame>, b: seq<Frame>)
    ensures EncodeAll(encode, a + b) == EncodeAll(encode, a) + EncodeAll(encode, b)
  {
    assert Encoded(encode, a + b) == Encoded(encode, a) + Encoded(encode, b);
    JoinedAppend(Encoded(encode, a), Encoded(encode, b));
  }

  lemma EncodeOne(encode: WireFrame -> seq<Byte>, f: Frame)
    ensures EncodeAll(encode, [f]) == Written(encode, OnWire(f))
  {
    assert Encoded(encode, [f]) == [Written(encode, OnWire(f))];
    JoinedOne(Written(encode, OnWire(f)));
  }

  lemma EncodeNext(encode: WireFrame -> seq<Byte>, fs: seq<Frame>, i: nat)
    requires i < |fs|
    ensures EncodeAll(encode, fs[..i + 1]) == EncodeAll(encode, fs[..i]) + Written(encode, OnWire(fs[i]))
    ensures EncodeAll(encode, fs[..i + 1]) <= EncodeAll(encode, fs)
  {
    var a, f, b := fs[..i], fs[i], fs[i + 1..];
    assert fs[..i + 1] == a + [f];
    assert fs == (a + [f]) + b;
    EncodeJoin(encode, a, [f]);
    EncodeOne(encode, f);
    EncodeJoin(encode, a + [f], b);
  }

  lemma EncodeFront(encode: WireFrame -> seq<Byte>, fs: seq<Frame>)
    requires fs != []
    ensures EncodeAll(encode, fs) == Written(encode, OnWire(fs[0])) + EncodeAll(encode, fs[1..])
  {
    assert fs == [fs[0]] + fs[1..];
    EncodeJoin(encode, [fs[0]], fs[1..]);
    EncodeOne(encode, fs[0]);
  }
}

/** The frames a stream of bytes holds, read one after another (common/net.h, recv_frame). */
module Framing {
  import opened ReqIds
  import opened Wire
  import opened Bytes

  datatype Received = Received(header: Header, payload: seq<Byte>)

  /** Whether a whole frame stands at the front of `b`. */
  predicate Complete(b: seq<Byte>) {
    && |b| >= REQ_HEADER_BYTES
    && ReadWord(b, 0) == MAGIC_REQ
    && REQ_HEADER_BYTES + DecodeHeader(b).payloadLen <= |b|
  }

  function FrontSize(b: seq<Byte>): (n: nat)
    requires Complete(b)
    ensures REQ_HEADER_BYTES <= n <= |b|
  {
    REQ_HEADER_BYTES + DecodeHeader(b).payloadLen
  }

  function Front(b: seq<Byte>): Received
    requires Complete(b)
  {
    Received(DecodeHeader(b), b[REQ_HEADER_BYTES..FrontSize(b)])
  }

  /** The frames a reader takes from the stream before it ends or stops making sense. */
  function Frames(b: seq<Byte>): seq<Received>
    decreases |b|
  {
    if !Complete(b) then [] else [Front(b)] + Frames(b[FrontSize(b)..])
  }

  /** What the frame the client queued looks like when it is read. */
  function Arrived(f: Frame): Received {
    Received(HeaderOf(OnWire(f)), f.payload)
  }

  /** What the server makes of it: the flag's lowest bit says that no reply is wanted. */
  function Understood(r: Received): WireFrame {
    WireFrame(r.header.reqId, r.header.api, r.header.flags % 2 == 1, r.header.thread, r.payload)
  }

  lemma ArrivedIsUnderstood(f: Frame)
    ensures Understood(Arrived(f)) == OnWire(f)
  {
  }

  function ArrivedAll(fs: seq<Frame>): (rs: seq<Received>)
    ensures |rs| == |fs|
  {
    seq(|fs|, i requires 0 <= i < |fs| => Arrived(fs[i]))
  }

  /** Payloads whose length the 32-bit field can say. */
  ghost predicate Sendable(fs: seq<Frame>) {
    forall i :: 0 <= i < |fs| ==> |fs[i].payload| < ID_SPACE
  }

  function Stream(fs: seq<Frame>): seq<Byte> {
    EncodeAll(EncodeFrame, fs)
  }

  lemma FrontOf(hb: seq<Byte>, h: Header, payload: seq<Byte>, rest: seq<Byte>)
    requires |hb| == REQ_HEADER_BYTES && h.payloadLen == |payload|
    requires DecodeHeader(hb + (payload + rest)) == h && ReadWord(hb + (payload + rest), 0) == MAGIC_REQ
    ensures var b := hb + payload + rest;
            Complete(b) && Front(b) == Received(h, payload) && b[FrontSize(b)..] == rest
  {
    assert hb + payload + rest == hb + (payload + rest);
  }

  /** The length field is cut to 32 bits: the reader takes that many bytes, and the rest is what it reads next. */
  lemma FrontOfFrame(w: WireFrame, e: seq<Byte>, rest: seq<Byte>)
    requires e == EncodeFrame(w)
    ensures var n := |w.payload| % ID_SPACE;
            && Complete(e + rest) && Front(e + rest) == Received(HeaderOf(w), w.payload[..n])
            && (e + rest)[FrontSize(e + rest)..] == w.payload[n..] + rest
  {
    var h, n := HeaderOf(w), |w.payload| % ID_SPACE;
    var taken, left := w.payload[..n], w.payload[n..] + rest;
    assert e + rest == EncodeHeader(h) + taken + left;
    HeaderInverse(h, taken + left);
    FrontOf(EncodeHeader(h), h, taken, left);
  }

  /** A frame is read back if and only if its payload is shorter than 2^32 bytes. */
  lemma FrontExact(w: WireFrame, rest: seq<Byte>)
    ensures Complete(EncodeFrame(w) + rest)
    ensures Front(EncodeFrame(w) + rest).payload == w.payload <==> |w.payload| < ID_SPACE
    ensures Understood(Front(EncodeFrame(w) + rest)) == w <==> |w.payload| < ID_SPACE
  {
    FrontOfFrame(w, EncodeFrame(w), rest);
  }

  lemma FramesOfFront(b: seq<Byte>, rest: seq<Byte>, r: Received)
    requires Complete(b) && Front(b) == r && b[FrontSize(b)..] == rest
    ensures Frames(b) == [r] + Frames(rest)
  {
  }

  /**
    The frames of a written stream are the frames written, and then those of whatever follows, if
    and only if every payload is shorter than 2^32 bytes.
   */
  lemma {:induction false} FramesOfStream(fs: seq<Frame>, tail: seq<Byte>)
    ensures Frames(Stream(fs) + tail) == ArrivedAll(fs) + Frames(tail) <==> Sendable(fs)
    decreases |fs|
  {
    hide Complete, Front, Frames, EncodeFrame, HeaderOf;
    if fs == [] {
      assert Stream(fs) + tail == tail;
      assert ArrivedAll(fs) + Frames(tail) == Frames(tail);
    } else {
      EncodeFront(EncodeFrame, fs);
      var w := OnWire(fs[0]);
      var e, r, n := EncodeFrame(w), Stream(fs[1..]) + tail, |fs[0].payload| % ID_SPACE;
      assert Stream(fs) + tail == e + r;
      FrontOfFrame(w, e, r);
      FramesOfFront(e + r, w.payload[n..] + r, Received(HeaderOf(w), w.payload[..n]));
      FramesOfStream(fs[1..], tail);
      ArrivedFront(fs, tail, Received(HeaderOf(w), w.payload[..n]), Frames(w.payload[n..] + r), Frames(r));
      assert n == |fs[0].payload| ==> w.payload[n..] + r == r;
    }
  }

  /** Comparing frame by frame: the first decides, and then the others. */
  lemma ArrivedFront(fs: seq<Frame>, tail: seq<Byte>, first: Received, others: seq<Received>, rest: seq<Received>)
    requires fs != [] && first.payload <= fs[0].payload && first.header == HeaderOf(OnWire(fs[0]))
    requires rest == ArrivedAll(fs[1..]) + Frames(tail) <==> Sendable(fs[1..])
    requires |first.payload| == |fs[0].payload| ==> others == rest
    requires |first.payload| == |fs[0].payload| <==> |fs[0].payload| < ID_SPACE
    ensures [first] + others == ArrivedAll(fs) + Frames(tail) <==> Sendable(fs)
  {
    var all := ArrivedAll(fs) + Frames(tail);
    assert all == [Arrived(fs[0])] + (ArrivedAll(fs[1..]) + Frames(tail));
    assert ([first] + others)[0] == first && ([first] + others)[1..] == others;
    assert all[1..] == ArrivedAll(fs[1..]) + Frames(tail);
    if |fs[0].payload| < ID_SPACE {
      assert first == Arrived(fs[0]);
      assert Sendable(fs) <==> Sendable(fs[1..]);
    }
  }

  /** Part of a frame is no frame. */
  lemma PartOfFrame(w: WireFrame, n: nat)
    requires |w.payload| < ID_SPACE && n < |EncodeFrame(w)|
    ensures Frames(EncodeFrame(w)[..n]) == []
  {
    var part := EncodeFrame(w)[..n];
    if n >= REQ_HEADER_BYTES {
      assert part == EncodeHeader(HeaderOf(w)) + w.payload[..n - REQ_HEADER_BYTES];
      HeaderInverse(HeaderOf(w), w.payload[..n - REQ_HEADER_BYTES]);
    }
  }

  lemma {:induction false} CutShortStream(fs: seq<Frame>, n: nat) returns (k: nat)
    requires Sendable(fs) && n <= |Stream(fs)|
    ensures k <= |fs| && Frames(Stream(fs)[..n]) == ArrivedAll(fs[..k])
    decreases |fs|
  {
    if fs == [] {
      k := 0;
    } else {
      var init, last := fs[..|fs| - 1], OnWire(fs[|fs| - 1]);
      var b, a := Stream(fs), Stream(init);
      EncodeNext(EncodeFrame, fs, |fs| - 1);
      assert fs[..|fs|] == fs;
      if n < |a| {
        assert b[..n] == a[..n];
        k := CutShortStream(init, n);
        assert init[..k] == fs[..k];
      } else if n < |b| {
        var part := EncodeFrame(last)[..n - |a|];
        assert b[..n] == a + part;
        PartOfFrame(last, n - |a|);
        FramesOfStream(init, part);
        k := |init|;
      } else {
        assert b[..n] == b + [];
        FramesOfStream(fs, []);
        k := |fs|;
      }
    }
  }

  /** How many frames come before the first whose payload is too long. */
  ghost function ShortFrames(fs: seq<Frame>): (m: nat)
    ensures m <= |fs| && Sendable(fs[..m])
    ensures m < |fs| ==> |fs[m].payload| >= ID_SPACE
  {
    if fs == [] || |fs[0].payload| >= ID_SPACE then 0
    else
      assert forall k: nat :: k <= |fs[1..]| ==> fs[..k + 1] == [fs[0]] + fs[1..][..k];
      1 + ShortFrames(fs[1..])
  }

  /**
    A connection cut after any number of bytes delivers a whole number of the frames written, from
    the first, and nothing else unless the next one is too long.
   */
  lemma CutStream(fs: seq<Frame>, n: nat) returns (k: nat)
    requires n <= |Stream(fs)|
    ensures k <= |fs| && ArrivedAll(fs[..k]) <= Frames(Stream(fs)[..n])
    ensures Frames(Stream(fs)[..n]) == ArrivedAll(fs[..k]) || (k < |fs| && |fs[k].payload| >= ID_SPACE)
  {
    var m := ShortFrames(fs);
    var g, late := fs[..m], fs[m..];
    assert fs == g + late;
    EncodeJoin(EncodeFrame, g, late);
    if n <= |Stream(g)| {
      assert Stream(fs)[..n] == Stream(g)[..n];
      k := CutShortStream(g, n);
      assert g[..k] == fs[..k];
    } else {
      k := m;
      var rest := Stream(late)[..n - |Stream(g)|];
      assert Stream(fs)[..n] == Stream(g) + rest;
      FramesOfStream(g, rest);
      assert late == [] ==> |Stream(late)| == 0;
    }
  }
}
