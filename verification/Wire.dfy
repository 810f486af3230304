/** Request frames, as the client builds them and the server reads them (common/wire.h). */
module Wire {
  import opened ReqIds

  type Byte = x: nat | x < 256
  type Word = x: nat | x < ID_SPACE

  const REQ_HEADER_BYTES: nat := 24

  /**
    A request. `place` is its place in the client's mint order, and its id on the wire is
    `WireId(place)`; `noReply` is kFlagNoReply.
   */
  datatype Frame = Frame(place: nat, api: Word, noReply: bool, thread: Word, payload: seq<Byte>)

  /** What the frame says on the wire: its id in place of its place. */
  datatype WireFrame = WireFrame(reqId: Id, api: Word, noReply: bool, thread: Word, payload: seq<Byte>)

  function OnWire(f: Frame): WireFrame {
    WireFrame(WireId(f.place), f.api, f.noReply, f.thread, f.payload)
  }

  function Size(f: Frame): nat {
    REQ_HEADER_BYTES + |f.payload|
  }

  function TotalSize(fs: seq<Frame>): nat {
    if fs == [] then 0 else TotalSize(fs[..|fs| - 1]) + Size(fs[|fs| - 1])
  }

  /** Frames in strictly increasing mint order. */
  ghost predicate Ordered(fs: seq<Frame>) {
    forall i, j :: 0 <= i < j < |fs| ==> fs[i].place < fs[j].place
  }

  ghost predicate Holds(fs: seq<Frame>, place: nat) {
    exists i :: 0 <= i < |fs| && fs[i].place == place
  }

  ghost predicate IsSuffix(tail: seq<Frame>, whole: seq<Frame>) {
    |tail| <= |whole| && whole[|whole| - |tail|..] == tail
  }

  lemma {:induction false} TotalSizeAppend(fs: seq<Frame>, f: Frame)
    ensures TotalSize(fs + [f]) == TotalSize(fs) + Size(f)
  {
    assert (fs + [f])[..|fs|] == fs;
  }

  lemma {:induction false} TotalSizeFront(fs: seq<Frame>)
    requires fs != []
    ensures TotalSize(fs) == Size(fs[0]) + TotalSize(fs[1..])
  {
    if |fs| > 1 {
      var init := fs[..|fs| - 1];
      TotalSizeFront(init);
      assert init[1..] == fs[1..][..|fs| - 2];
    }
  }

  /** The cap on held bytes is a cap on held frames. */
  lemma {:induction false} HeldFramesBound(fs: seq<Frame>)
    ensures |fs| * REQ_HEADER_BYTES <= TotalSize(fs)
  {
    if fs != [] {
      HeldFramesBound(fs[..|fs| - 1]);
    }
  }
}
