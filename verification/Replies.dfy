/**
  Reply frames as bytes, and how a client reads them one after another (common/wire.h, common/net.h).
  The length of a reply is cast to 32 bits like a request's (server/main.cpp).
 */
module Replies {
  import opened ReqIds
  import opened Wire
  import opened Bytes

  // kMagicRsp, "RGRP"
  const MAGIC_RSP: Word := 0x5247_5250

  const RSP_HEADER_BYTES: nat := 16

  /** RspHeader and its payload; `code` is the CUresult, as its 32 bits. */
  datatype WireReply = WireReply(reqId: Word, code: Word, payload: seq<Byte>)

  function ReplyHeader(id: Word, code: Word, n: Word): (b: seq<Byte>)
    ensures |b| == RSP_HEADER_BYTES
  {
    Word4(MAGIC_RSP) + Word4(id) + Word4(code) + Word4(n)
  }

  function EncodeReply(w: WireReply): (b: seq<Byte>)
    ensures |b| == RSP_HEADER_BYTES + |w.payload|
  {
    ReplyHeader(w.reqId, w.code, |w.payload| % ID_SPACE) + w.payload
  }

  /** Whether a whole reply stands at the front of `b`. */
  predicate Whole(b: seq<Byte>) {
    && |b| >= RSP_HEADER_BYTES
    && ReadWord(b, 0) == MAGIC_RSP
    && RSP_HEADER_BYTES + ReadWord(b, 12) <= |b|
  }

  function First(b: seq<Byte>): WireReply
    requires Whole(b)
  {
    WireReply(ReadWord(b, 4), ReadWord(b, 8), b[RSP_HEADER_BYTES..RSP_HEADER_BYTES + ReadWord(b, 12)])
  }

  function AfterFirst(b: seq<Byte>): (rest: seq<Byte>)
    requires Whole(b)
    ensures |rest| < |b|
  {
    b[RSP_HEADER_BYTES + ReadWord(b, 12)..]
  }

  lemma HeaderBack(id: Word, code: Word, n: Word, rest: seq<Byte>)
    ensures var b := ReplyHeader(id, code, n) + rest;
            && ReadWord(b, 0) == MAGIC_RSP && ReadWord(b, 4) == id
            && ReadWord(b, 8) == code && ReadWord(b, 12) == n
  {
    FourWords(Word4(MAGIC_RSP), Word4(id), Word4(code), Word4(n), rest);
    Pow256Values();
    LittleInverse(MAGIC_RSP, WORD_BYTES);
    LittleInverse(id, WORD_BYTES);
    LittleInverse(code, WORD_BYTES);
    LittleInverse(n, WORD_BYTES);
  }

  /** Where each field of RspHeader is, byte by byte. */
  lemma ReplyLayout(w: WireReply)
    requires |w.payload| < ID_SPACE
    ensures var b := EncodeReply(w);
            && |b| == 16 + |w.payload| && b[0..4] == [0x50, 0x52, 0x47, 0x52]
            && FromLittle(b[4..8]) == w.reqId && FromLittle(b[8..12]) == w.code
            && FromLittle(b[12..16]) == |w.payload| && b[16..] == w.payload
  {
    hide Little, FromLittle;
    var m, i, c, n := Word4(MAGIC_RSP), Word4(w.reqId), Word4(w.code), Word4(|w.payload|);
    FourWords(m, i, c, n, w.payload);
    assert EncodeReply(w) == m + i + c + n + w.payload;
    MagicBytes();
    WordBack(w.reqId);
    WordBack(w.code);
    WordBack(|w.payload|);
    hide Word4, EncodeReply;
  }

  lemma WordBack(x: Word)
    ensures FromLittle(Word4(x)) == x
  {
    Pow256Values();
    LittleInverse(x, WORD_BYTES);
  }

  lemma MagicBytes()
    ensures Little(MAGIC_RSP, 4) == [0x50, 0x52, 0x47, 0x52]
  {
    assert Little(0x52, 1) == [0x52] && Little(0x5247, 2) == [0x47, 0x52] && Little(0x524752, 3) == [0x52, 0x47, 0x52];
  }

  /** Anything else at the front of the stream is no reply: the magic is checked before the length is used. */
  lemma OnlyTheMagic(b: seq<Byte>)
    requires |b| >= 16
    ensures Whole(b) <==> b[0..4] == [0x50, 0x52, 0x47, 0x52] && 16 + FromLittle(b[12..16]) <= |b|
  {
    MagicIsUnique(b[0..4]);
  }

  lemma MagicIsUnique(m: seq<Byte>)
    requires |m| == 4
    ensures FromLittle(m) == MAGIC_RSP <==> m == [0x50, 0x52, 0x47, 0x52]
  {
    LittleOnto(m);
    MagicBytes();
    Pow256Values();
    LittleInverse(MAGIC_RSP, 4);
    hide Little, FromLittle;
  }

  lemma FourWords(m: seq<Byte>, i: seq<Byte>, c: seq<Byte>, n: seq<Byte>, rest: seq<Byte>)
    requires |m| == |i| == |c| == |n| == 4
    ensures var b := m + i + c + n + rest;
            b[0..4] == m && b[4..8] == i && b[8..12] == c && b[12..16] == n
  {
  }

  /** The reader takes as many bytes as the cut length says, and reads on from there. */
  lemma FirstOfReply(w: WireReply, rest: seq<Byte>)
    ensures var b, n := EncodeReply(w) + rest, |w.payload| % ID_SPACE;
            && Whole(b) && First(b) == w.(payload := w.payload[..n])
            && AfterFirst(b) == w.payload[n..] + rest
  {
    var n := |w.payload| % ID_SPACE;
    var h := ReplyHeader(w.reqId, w.code, n);
    assert EncodeReply(w) + rest == h + (w.payload + rest);
    HeaderBack(w.reqId, w.code, n, w.payload + rest);
    hide ReplyHeader, EncodeReply, ReadWord;
    var b := h + (w.payload + rest);
    assert b[RSP_HEADER_BYTES..RSP_HEADER_BYTES + n] == w.payload[..n];
    assert b[RSP_HEADER_BYTES + n..] == w.payload[n..] + rest;
  }

  /** A reply is read back, with what follows it, if and only if its payload is shorter than 2^32 bytes. */
  lemma ReplyExact(w: WireReply, rest: seq<Byte>)
    ensures var b := EncodeReply(w) + rest;
            && Whole(b)
            && (First(b) == w <==> |w.payload| < ID_SPACE)
            && (AfterFirst(b) == rest <==> |w.payload| < ID_SPACE)
  {
    FirstOfReply(w, rest);
    var n := |w.payload| % ID_SPACE;
    if n == |w.payload| {
      assert w.payload[n..] + rest == rest;
    } else {
      assert |w.payload[..n]| != |w.payload| && |w.payload[n..] + rest| != |rest|;
    }
  }

  /**
    A reply of 2^32 bytes or more, such as a copy of 2^32 bytes to the client behind its 8-byte
    length. Where the cut length ends, the copied memory is read as the next reply: if it looks
    like one, to any request and with any result, a client waiting for that request takes it.
   */
  lemma ForgedReply(id: Word, code: Word, head: seq<Byte>, forged: WireReply, filler: seq<Byte>, rest: seq<Byte>)
    requires |head| < ID_SPACE && |forged.payload| < ID_SPACE
    requires RSP_HEADER_BYTES + |forged.payload| + |filler| == ID_SPACE
    ensures var b := EncodeReply(WireReply(id, code, head + (EncodeReply(forged) + filler))) + rest;
            && Whole(b) && First(b) == WireReply(id, code, head)
            && Whole(AfterFirst(b)) && First(AfterFirst(b)) == forged
  {
    hide EncodeReply;
    var copied := EncodeReply(forged) + filler;
    var payload := head + copied;
    FirstOfReply(WireReply(id, code, payload), rest);
    assert |payload| % ID_SPACE == |head|;
    assert payload[..|head|] == head && payload[|head|..] == copied;
    assert copied + rest == EncodeReply(forged) + (filler + rest);
    ReplyExact(forged, filler + rest);
  }
}
