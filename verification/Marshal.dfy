/**
  How one call's arguments travel (codegen/emit.py): for each way a parameter can be passed, what
  the generated client writes and the generated server reads, and the reply back.

  Fields are written one after another with no tags, so both sides have to walk the parameters in
  the same order and agree on every length.
 */
module Marshal {
  import opened Wrappers
  import opened Wire
  import opened Bytes

  const SIZE_SPACE: nat := 0x1_0000_0000_0000_0000
  const SIZE_BYTES: nat := 8

  // size_t and a handle cast to uint64_t
  type Size = x: nat | x < SIZE_SPACE

  /**
    The modes of plan_param. A size expression reads the parameters passed by value, which the
    server has under the same names once it has decoded them.
   */
  datatype Mode =
    | Scalar(width: nat)
    | Handle
    | Str
    | OutScalar(width: nat)
    | OutHandle
    | PodIn(width: nat)
    | PodOut(width: nat)
    | InBuffer(size: seq<Arg> -> Size)
    | OutBuffer(size: seq<Arg> -> Size)
    | Fatbin
    | Ignore

  /** An argument: what the client passes, and what the server passes on. */
  datatype Arg =
    | Num(bytes: seq<Byte>)
    | Ref(handle: Size)
    | Text(text: Option<seq<Byte>>)
    | Place(present: bool)              // a pointer to be written through
    | Block(block: Option<seq<Byte>>)   // a pointer to bytes to be read
    | Room(present: bool, room: Size)   // a buffer to be filled, and its size
    | Nothing

  function Flag(b: bool): seq<Byte> {
    [if b then 1 else 0]
  }

  function Sized(b: seq<Byte>): seq<Byte> {
    Little(|b|, SIZE_BYTES) + b
  }

  // --- what the client writes ------------------------------------------------

  /** The argument is one the parameter's type allows. */
  predicate Fits(m: Mode, a: Arg) {
    match m
    case Scalar(w) => a.Num? && |a.bytes| == w
    case Handle => a.Ref?
    case Str => a.Text? && (a.text.Some? ==> |a.text.value| < SIZE_SPACE)
    case OutScalar(_) => a.Place?
    case OutHandle => a.Place?
    case PodIn(w) => a.Block? && (a.block.Some? ==> |a.block.value| == w)
    case PodOut(_) => a.Place?
    case InBuffer(_) => a.Block? && (a.block.Some? ==> |a.block.value| < SIZE_SPACE)
    case OutBuffer(_) => a.Room?
    case Fatbin => a.Block? && (a.block.Some? ==> |a.block.value| < SIZE_SPACE)
    case Ignore => true
  }

  /** emit_client_request. */
  function EncodeArg(m: Mode, a: Arg): seq<Byte>
    requires Fits(m, a)
  {
    match m
    case Scalar(_) => a.bytes
    case Handle => Little(a.handle, SIZE_BYTES)
    case Str => if a.text.None? then Flag(false) else Flag(true) + Sized(a.text.value)
    case OutScalar(_) => Flag(a.present)
    case OutHandle => Flag(a.present)
    case PodIn(_) => if a.block.None? then Flag(false) else Flag(true) + a.block.value
    case PodOut(_) => Flag(a.present)
    case InBuffer(_) => if a.block.None? then Flag(false) else Flag(true) + Sized(a.block.value)
    case OutBuffer(_) => Flag(a.present) + Little(a.room, SIZE_BYTES)
    case Fatbin => if a.block.None? then Flag(false) else Flag(true) + Sized(a.block.value)
    case Ignore => []
  }

  ghost predicate AllFit(ms: seq<Mode>, args: seq<Arg>) {
    |ms| == |args| && forall i :: 0 <= i < |ms| ==> Fits(ms[i], args[i])
  }

  function EncodeArgs(ms: seq<Mode>, args: seq<Arg>): seq<Byte>
    requires AllFit(ms, args)
  {
    if ms == [] then [] else EncodeArg(ms[0], args[0]) + EncodeArgs(ms[1..], args[1..])
  }

  /** How many bytes an argument takes: 8 for a handle or a length, one to say whether a pointer is null. */
  lemma ArgSize(m: Mode, a: Arg)
    requires Fits(m, a)
    ensures |EncodeArg(m, a)| ==
      match m
      case Scalar(w) => w
      case Handle => 8
      case Str => if a.text.None? then 1 else 9 + |a.text.value|
      case PodIn(w) => if a.block.None? then 1 else 1 + w
      case OutBuffer(_) => 9
      case InBuffer(_) => if a.block.None? then 1 else 9 + |a.block.value|
      case Fatbin => if a.block.None? then 1 else 9 + |a.block.value|
      case Ignore => 0
      case _ => 1
    ensures !m.Scalar? && !m.Handle? && !m.Ignore? ==>
      EncodeArg(m, a)[0] == if a in {Text(None), Block(None), Place(false)} || (a.Room? && !a.present) then 0 else 1
  {
  }

  // --- what the server reads -------------------------------------------------

  datatype Read<T> = Short | Got(value: T, rest: seq<Byte>)

  function TakeBytes(s: seq<Byte>, n: nat): Read<seq<Byte>> {
    if n > |s| then Short else Got(s[..n], s[n..])
  }

  function TakeSize(s: seq<Byte>): Read<Size> {
    if SIZE_BYTES > |s| then Short
    else
      Pow256Values();
      Got(FromLittle(s[..SIZE_BYTES]), s[SIZE_BYTES..])
  }

  /** get_sized. */
  function TakeSized(s: seq<Byte>): Read<seq<Byte>> {
    match TakeSize(s)
    case Short => Short
    case Got(n, rest) => TakeBytes(rest, n)
  }

  function TakeFlag(s: seq<Byte>): Read<bool> {
    if s == [] then Short else Got(s[0] != 0, s[1..])
  }

  /** What follows the byte that says whether a pointer is null. */
  function DecodeFlagged(m: Mode, has: bool, s: seq<Byte>): Read<Arg>
    requires !m.Ignore? && !m.Scalar? && !m.Handle?
  {
    match m
    case OutBuffer(_) => (match TakeSize(s) case Short => Short case Got(n, r) => Got(Room(has, n), r))
    case OutScalar(_) => Got(Place(has), s)
    case OutHandle => Got(Place(has), s)
    case PodOut(_) => Got(Place(has), s)
    case Str =>
      if !has then Got(Text(None), s)
      else (match TakeSized(s) case Short => Short case Got(b, r) => Got(Text(Some(b)), r))
    case PodIn(w) =>
      if !has then Got(Block(None), s)
      else (match TakeBytes(s, w) case Short => Short case Got(b, r) => Got(Block(Some(b)), r))
    case _ =>
      if !has then Got(Block(None), s)
      else (match TakeSized(s) case Short => Short case Got(b, r) => Got(Block(Some(b)), r))
  }

  /** One parameter of emit_server_case, up to the checks. */
  function DecodeArg(m: Mode, s: seq<Byte>): Read<Arg> {
    match m
    case Scalar(w) => (match TakeBytes(s, w) case Short => Short case Got(b, r) => Got(Num(b), r))
    case Handle => (match TakeSize(s) case Short => Short case Got(h, r) => Got(Ref(h), r))
    case Ignore => Got(Nothing, s)
    case _ =>
      match TakeFlag(s)
      case Short => Short
      case Got(has, rest) => DecodeFlagged(m, has, rest)
  }

  function DecodeArgs(ms: seq<Mode>, s: seq<Byte>): Read<seq<Arg>> {
    if ms == [] then Got([], s)
    else
      match DecodeArg(ms[0], s)
      case Short => Short
      case Got(a, rest) =>
        match DecodeArgs(ms[1..], rest)
        case Short => Short
        case Got(args, end) => Got([a] + args, end)
  }

  // --- the request comes back as it was sent ---------------------------------

  /** What the server has of an argument: nothing of one the generator ignores. */
  function ReadBack(m: Mode, a: Arg): Arg {
    if m.Ignore? then Nothing else a
  }

  function ReadBackAll(ms: seq<Mode>, args: seq<Arg>): (r: seq<Arg>)
    requires |ms| == |args|
    ensures |r| == |args|
  {
    seq(|args|, i requires 0 <= i < |args| => ReadBack(ms[i], args[i]))
  }

  lemma SizeBack(n: Size, rest: seq<Byte>)
    ensures TakeSize(Little(n, SIZE_BYTES) + rest) == Got(n, rest)
  {
    Pow256Values();
    LittleInverse(n, SIZE_BYTES);
    assert (Little(n, SIZE_BYTES) + rest)[..SIZE_BYTES] == Little(n, SIZE_BYTES);
  }

  lemma SizedBack(b: seq<Byte>, rest: seq<Byte>)
    requires |b| < SIZE_SPACE
    ensures TakeSized(Sized(b) + rest) == Got(b, rest)
  {
    assert Sized(b) + rest == Little(|b|, SIZE_BYTES) + (b + rest);
    SizeBack(|b|, b + rest);
    assert (b + rest)[..|b|] == b && (b + rest)[|b|..] == rest;
  }

  lemma FlagBack(has: bool, rest: seq<Byte>)
    ensures TakeFlag(Flag(has) + rest) == Got(has, rest)
  {
    assert (Flag(has) + rest)[1..] == rest;
  }

  /** One argument is read back from the front of whatever follows it. */
  lemma ArgBack(m: Mode, a: Arg, tail: seq<Byte>)
    requires Fits(m, a)
    ensures DecodeArg(m, EncodeArg(m, a) + tail) == Got(ReadBack(m, a), tail)
  {
    hide Little, FromLittle, Sized, Flag, TakeSized, TakeSize, TakeFlag;
    match m
    case Scalar(w) =>
      assert (a.bytes + tail)[..w] == a.bytes && (a.bytes + tail)[w..] == tail;
    case Handle =>
      SizeBack(a.handle, tail);
    case OutBuffer(_) =>
      RoomBack(a.present, a.room, tail);
    case Ignore =>
      assert [] + tail == tail;
    case Str =>
      if a.text.None? { FlagBack(false, tail); } else { FlagSized(a.text.value, tail); }
    case PodIn(w) =>
      if a.block.None? { FlagBack(false, tail); } else { FlagPod(a.block.value, tail); }
    case InBuffer(_) =>
      if a.block.None? { FlagBack(false, tail); } else { FlagSized(a.block.value, tail); }
    case Fatbin =>
      if a.block.None? { FlagBack(false, tail); } else { FlagSized(a.block.value, tail); }
    case _ =>
      FlagBack(a.present, tail);
  }

  lemma RoomBack(present: bool, room: nat, tail: seq<Byte>)
    requires room < SIZE_SPACE
    ensures TakeFlag(Flag(present) + Little(room, SIZE_BYTES) + tail) == Got(present, Little(room, SIZE_BYTES) + tail)
    ensures TakeSize(Little(room, SIZE_BYTES) + tail) == Got(room, tail)
  {
    hide Little, FromLittle, Flag, TakeSize, TakeFlag;
    var size := Little(room, SIZE_BYTES);
    assert Flag(present) + size + tail == Flag(present) + (size + tail);
    FlagBack(present, size + tail);
    SizeBack(room, tail);
  }

  lemma FlagPod(b: seq<Byte>, tail: seq<Byte>)
    ensures TakeFlag(Flag(true) + b + tail) == Got(true, b + tail)
    ensures (b + tail)[..|b|] == b && (b + tail)[|b|..] == tail
  {
    hide Flag, TakeFlag;
    assert Flag(true) + b + tail == Flag(true) + (b + tail);
    FlagBack(true, b + tail);
  }

  lemma FlagSized(b: seq<Byte>, tail: seq<Byte>)
    requires |b| < SIZE_SPACE
    ensures TakeFlag(Flag(true) + Sized(b) + tail) == Got(true, Sized(b) + tail)
    ensures TakeSized(Sized(b) + tail) == Got(b, tail)
  {
    hide Little, FromLittle, Sized, Flag, TakeSized, TakeFlag;
    assert Flag(true) + Sized(b) + tail == Flag(true) + (Sized(b) + tail);
    FlagBack(true, Sized(b) + tail);
    SizedBack(b, tail);
  }

  /** The server decodes what the client encoded, and reads no further. */
  lemma {:induction false} RequestRoundTrip(ms: seq<Mode>, args: seq<Arg>, tail: seq<Byte>)
    requires AllFit(ms, args)
    ensures DecodeArgs(ms, EncodeArgs(ms, args) + tail) == Got(ReadBackAll(ms, args), tail)
  {
    if ms == [] {
      assert EncodeArgs(ms, args) + tail == tail;
      assert ReadBackAll(ms, args) == [];
    } else {
      hide Fits, EncodeArg, DecodeArg, ReadBack;
      var first, others := EncodeArg(ms[0], args[0]), EncodeArgs(ms[1..], args[1..]);
      assert EncodeArgs(ms, args) + tail == first + (others + tail);
      ArgBack(ms[0], args[0], others + tail);
      RequestRoundTrip(ms[1..], args[1..], tail);
      assert ReadBackAll(ms, args) == [ReadBack(ms[0], args[0])] + ReadBackAll(ms[1..], args[1..]);
    }
  }

  // --- the sizes the server checks -------------------------------------------

  /** The arguments a size expression can read. */
  function Visible(ms: seq<Mode>, args: seq<Arg>): (r: seq<Arg>)
    requires |ms| == |args|
    ensures |r| == |args|
    ensures forall i :: 0 <= i < |ms| && (ms[i].Scalar? || ms[i].Handle?) ==> r[i] == args[i]
    ensures forall i :: 0 <= i < |ms| && !ms[i].Scalar? && !ms[i].Handle? ==> r[i] == Nothing
  {
    seq(|args|, i requires 0 <= i < |args| => if ms[i].Scalar? || ms[i].Handle? then args[i] else Nothing)
  }

  /** One of the checks emitted after every parameter has been decoded. */
  predicate SizeOk(m: Mode, a: Arg, seen: seq<Arg>)
    requires Fits(m, a)
  {
    match m
    case InBuffer(size) => a.block.Some? ==> size(seen) == |a.block.value|
    case OutBuffer(size) => a.present ==> size(seen) == a.room && a.room != 0
    case _ => true
  }

  ghost predicate SizesOk(ms: seq<Mode>, args: seq<Arg>)
    requires AllFit(ms, args)
  {
    forall i :: 0 <= i < |ms| ==> SizeOk(ms[i], args[i], Visible(ms, args))
  }

  /** What the size expression of a buffer comes to. */
  function Worth(ms: seq<Mode>, args: seq<Arg>, i: nat): Size
    requires i < |ms| == |args|
  {
    match ms[i]
    case InBuffer(size) => size(Visible(ms, args))
    case OutBuffer(size) => size(Visible(ms, args))
    case _ => 0
  }

  /** How many bytes a block has. */
  function Length(a: Arg): nat {
    if a.Block? && a.block.Some? then |a.block.value| else 0
  }

  /**
    The checks let a request through exactly if every buffer has the size its own parameters work
    out to, and one to be filled has some: a request that lies about a size never reaches the driver.
   */
  lemma SizesExact(ms: seq<Mode>, args: seq<Arg>)
    requires AllFit(ms, args)
    ensures SizesOk(ms, args) <==> forall i :: 0 <= i < |ms| ==>
      && (ms[i].InBuffer? && args[i] != Block(None) ==> Length(args[i]) == Worth(ms, args, i))
      && (ms[i].OutBuffer? && args[i].present ==> 0 < args[i].room == Worth(ms, args, i))
  {
    forall i | 0 <= i < |ms|
      ensures Fits(ms[i], args[i])
      ensures SizeOk(ms[i], args[i], Visible(ms, args)) <==>
        && (ms[i].InBuffer? && args[i] != Block(None) ==> Length(args[i]) == Worth(ms, args, i))
        && (ms[i].OutBuffer? && args[i].present ==> 0 < args[i].room == Worth(ms, args, i))
    {
    }
  }

  /** A client built by the generator sends the sizes its own arguments work out to. */
  ghost predicate Honest(ms: seq<Mode>, args: seq<Arg>)
    requires AllFit(ms, args)
  {
    forall i :: 0 <= i < |ms| ==>
      match ms[i]
      case InBuffer(size) => args[i].block.Some? ==> |args[i].block.value| == size(Visible(ms, args))
      case OutBuffer(size) => args[i].room == size(Visible(ms, args))
      case _ => true
  }

  /** A call without buffers has no size to be honest about. */
  lemma PlainIsHonest(ms: seq<Mode>, args: seq<Arg>)
    requires AllFit(ms, args) && forall i :: 0 <= i < |ms| ==> !ms[i].InBuffer? && !ms[i].OutBuffer?
    ensures Honest(ms, args)
  {
  }

  /** An honest request is refused exactly when it asks for a buffer of no bytes to be filled. */
  lemma HonestSizesPass(ms: seq<Mode>, args: seq<Arg>)
    requires AllFit(ms, args) && Honest(ms, args)
    ensures AllFit(ms, ReadBackAll(ms, args))
    ensures SizesOk(ms, ReadBackAll(ms, args)) <==>
      forall i :: 0 <= i < |ms| && ms[i].OutBuffer? && args[i].present ==> args[i].room != 0
  {
    var back := ReadBackAll(ms, args);
    assert Visible(ms, back) == Visible(ms, args);
    assert forall i :: 0 <= i < |ms| && !ms[i].Ignore? ==> back[i] == args[i];
    if SizesOk(ms, back) {
      forall i | 0 <= i < |ms| && ms[i].OutBuffer? && args[i].present ensures args[i].room != 0 {
        assert SizeOk(ms[i], back[i], Visible(ms, back));
      }
    }
  }

  /** What the driver is called with: a borrowed view of no bytes is a null pointer, and so is an ignored parameter. */
  function Passed(m: Mode, a: Arg): Arg {
    match m
    case InBuffer(_) => if a == Block(Some([])) then Block(None) else a
    case Fatbin => if a == Block(Some([])) then Block(None) else a
    case Ignore => Nothing
    case _ => a
  }

  function PassedAll(ms: seq<Mode>, args: seq<Arg>): (r: seq<Arg>)
    requires |ms| == |args|
    ensures |r| == |args|
  {
    seq(|args|, i requires 0 <= i < |args| => Passed(ms[i], args[i]))
  }

  /** The driver sees the client's own arguments unless one is a block of no bytes, or is ignored. */
  lemma DriverSeesArgs(ms: seq<Mode>, args: seq<Arg>)
    requires AllFit(ms, args)
    ensures PassedAll(ms, ReadBackAll(ms, args)) == args <==>
      forall i :: 0 <= i < |ms| ==>
        && (ms[i].InBuffer? || ms[i].Fatbin? ==> args[i] != Block(Some([])))
        && (ms[i].Ignore? ==> args[i] == Nothing)
  {
    var passed := PassedAll(ms, ReadBackAll(ms, args));
    assert forall i :: 0 <= i < |ms| ==> passed[i] == Passed(ms[i], args[i]);
    if passed == args {
      forall i | 0 <= i < |ms| ensures Passed(ms[i], args[i]) == args[i] {
        assert passed[i] == args[i];
      }
    }
  }

  // --- the reply -------------------------------------------------------------

  /** How many bytes the driver writes through the argument; nothing for one that is not an output. */
  function Width(m: Mode, a: Arg): nat {
    match m
    case OutScalar(w) => w
    case OutHandle => SIZE_BYTES
    case PodOut(w) => w
    case OutBuffer(_) => if a.Room? then a.room else 0
    case _ => 0
  }

  /** The client gave somewhere to write. */
  predicate Wanted(m: Mode, a: Arg) {
    match m
    case OutScalar(_) => a == Place(true)
    case OutHandle => a == Place(true)
    case PodOut(_) => a == Place(true)
    case OutBuffer(_) => a.Room? && a.present
    case _ => false
  }

  /** A reply carries an output exactly if the parameter is one and the client's pointer is not null. */
  lemma WantedExactly(m: Mode, a: Arg)
    requires Fits(m, a)
    ensures Wanted(m, a) <==>
      || ((m.OutScalar? || m.OutHandle? || m.PodOut?) && a == Place(true))
      || (m.OutBuffer? && a == Room(true, a.room))
  {
  }

  /** What the driver wrote, one entry a parameter. */
  ghost predicate OutputsFit(ms: seq<Mode>, args: seq<Arg>, outs: seq<seq<Byte>>) {
    && |ms| == |args| == |outs|
    && forall i :: 0 <= i < |ms| && Wanted(ms[i], args[i]) ==>
         |outs[i]| == Width(ms[i], args[i]) && |outs[i]| < SIZE_SPACE
  }

  /** The `post` lines of emit_server_case. */
  function EncodeOut(m: Mode, a: Arg, out: seq<Byte>): seq<Byte> {
    if !Wanted(m, a) then []
    else if m.PodOut? || m.OutBuffer? then Sized(out)
    else out
  }

  /** How many bytes an output takes: a struct or a buffer has its length in front. */
  lemma OutSize(m: Mode, a: Arg, out: seq<Byte>)
    requires Fits(m, a) && (Wanted(m, a) ==> |out| == Width(m, a))
    ensures |EncodeOut(m, a, out)| ==
      match m
      case OutScalar(w) => if a.present then w else 0
      case OutHandle => if a.present then 8 else 0
      case PodOut(w) => if a.present then 8 + w else 0
      case OutBuffer(_) => if a.present then 8 + a.room else 0
      case _ => 0
  {
  }

  function EncodeOuts(ms: seq<Mode>, args: seq<Arg>, outs: seq<seq<Byte>>): seq<Byte>
    requires |ms| == |args| == |outs|
  {
    if ms == [] then [] else EncodeOut(ms[0], args[0], outs[0]) + EncodeOuts(ms[1..], args[1..], outs[1..])
  }

  /** emit_client_response: what is written through one of the client's own pointers. */
  function DecodeOut(m: Mode, a: Arg, s: seq<Byte>): Read<Option<seq<Byte>>> {
    if !Wanted(m, a) then Got(None, s)
    else if m.PodOut? || m.OutBuffer? then
      match TakeSized(s)
      case Short => Short
      case Got(b, rest) => if m.PodOut? && |b| != Width(m, a) then Short else Got(Some(b), rest)
    else
      match TakeBytes(s, Width(m, a))
      case Short => Short
      case Got(b, rest) => Got(Some(b), rest)
  }

  function DecodeOuts(ms: seq<Mode>, args: seq<Arg>, s: seq<Byte>): Read<seq<Option<seq<Byte>>>>
    requires |ms| == |args|
  {
    if ms == [] then Got([], s)
    else
      match DecodeOut(ms[0], args[0], s)
      case Short => Short
      case Got(o, rest) =>
        match DecodeOuts(ms[1..], args[1..], rest)
        case Short => Short
        case Got(os, end) => Got([o] + os, end)
  }

  /** What should be written: the driver's output, where the client wants it. */
  function Delivered(ms: seq<Mode>, args: seq<Arg>, outs: seq<seq<Byte>>): (r: seq<Option<seq<Byte>>>)
    requires |ms| == |args| == |outs|
    ensures |r| == |ms|
  {
    seq(|ms|, i requires 0 <= i < |ms| => if Wanted(ms[i], args[i]) then Some(outs[i]) else None)
  }

  lemma OutBack(m: Mode, a: Arg, out: seq<Byte>, tail: seq<Byte>)
    requires Wanted(m, a) ==> |out| == Width(m, a) && |out| < SIZE_SPACE
    ensures DecodeOut(m, a, EncodeOut(m, a, out) + tail) == Got(if Wanted(m, a) then Some(out) else None, tail)
  {
    if !Wanted(m, a) {
      assert [] + tail == tail;
    } else if m.PodOut? || m.OutBuffer? {
      SizedBack(out, tail);
    } else {
      assert (out + tail)[..|out|] == out && (out + tail)[|out|..] == tail;
    }
  }

  /** A struct of another size than the client's is not written through its pointer. */
  lemma WrongStructIsRefused(w: nat, b: seq<Byte>, tail: seq<Byte>)
    requires |b| < SIZE_SPACE
    ensures DecodeOut(PodOut(w), Place(true), Sized(b) + tail) == if |b| == w then Got(Some(b), tail) else Short
  {
    SizedBack(b, tail);
  }

  /** The client decodes the reply the server encoded, whatever the arguments were. */
  lemma {:induction false} ReplyRoundTrip(ms: seq<Mode>, args: seq<Arg>, outs: seq<seq<Byte>>, tail: seq<Byte>)
    requires OutputsFit(ms, args, outs)
    ensures DecodeOuts(ms, args, EncodeOuts(ms, args, outs) + tail) == Got(Delivered(ms, args, outs), tail)
  {
    if ms == [] {
      assert EncodeOuts(ms, args, outs) + tail == tail;
    } else {
      hide EncodeOut, DecodeOut, Width, Wanted;
      var first, others := EncodeOut(ms[0], args[0], outs[0]), EncodeOuts(ms[1..], args[1..], outs[1..]);
      assert EncodeOuts(ms, args, outs) + tail == first + (others + tail);
      OutBack(ms[0], args[0], outs[0], others + tail);
      ReplyRoundTrip(ms[1..], args[1..], outs[1..], tail);
      assert Delivered(ms, args, outs)
          == [if Wanted(ms[0], args[0]) then Some(outs[0]) else None] + Delivered(ms[1..], args[1..], outs[1..]);
    }
  }

  /** The server writes for the arguments it decoded what the client reads for its own. */
  lemma SameWants(ms: seq<Mode>, args: seq<Arg>)
    requires |ms| == |args|
    ensures forall i :: 0 <= i < |ms| ==>
      && Wanted(ms[i], ReadBackAll(ms, args)[i]) == Wanted(ms[i], args[i])
      && Width(ms[i], ReadBackAll(ms, args)[i]) == Width(ms[i], args[i])
  {
  }

  // --- the buffer ------------------------------------------------------------

  /** Buffer (common/wire.h): bytes appended at the end, read by a cursor that stops for good at an overrun. */
  class Buffer {
    var data: seq<Byte>
    var read: nat
    var ok: bool

    ghost predicate Valid()
      reads this
    {
      read <= |data|
    }

    /** What is left to read. */
    ghost function Left(): seq<Byte>
      reads this
      requires Valid()
    {
      data[read..]
    }

    constructor (data: seq<Byte>)
      ensures Valid() && ok && Left() == data
    {
      this.data, read, ok := data, 0, true;
    }

    method Put(b: seq<Byte>)
      requires Valid()
      modifies this`data
      ensures Valid() && data == old(data) + b && Left() == old(Left()) + b
    {
      data := data + b;
    }

    /** take: compared with what is left, so that a length near 2^64 cannot wrap. */
    method Take(n: nat) returns (good: bool, b: seq<Byte>)
      requires Valid()
      modifies this`read, this`ok
      ensures Valid() && good == ok == (old(ok) && TakeBytes(old(Left()), n).Got?)
      ensures good ==> Got(b, Left()) == TakeBytes(old(Left()), n)
      ensures !good ==> Left() == old(Left())
    {
      if !ok || n > |data| - read {
        ok := false;
        return false, [];
      }
      b := data[read..read + n];
      assert data[read..][..n] == b && data[read..][n..] == data[read + n..];
      read := read + n;
      return true, b;
    }

    method GetFlag() returns (good: bool, has: bool)
      requires Valid()
      modifies this`read, this`ok
      ensures Valid() && good == ok == (old(ok) && TakeFlag(old(Left())).Got?)
      ensures good ==> Got(has, Left()) == TakeFlag(old(Left()))
    {
      var b;
      good, b := Take(1);
      has := good && b[0] != 0;
    }

    method GetSize() returns (good: bool, n: Size)
      requires Valid()
      modifies this`read, this`ok
      ensures Valid() && good == ok == (old(ok) && TakeSize(old(Left())).Got?)
      ensures good ==> Got(n, Left()) == TakeSize(old(Left()))
    {
      var b;
      good, b := Take(SIZE_BYTES);
      Pow256Values();
      n := if good then FromLittle(b) else 0;
    }

    /** get_sized. */
    method GetSized() returns (good: bool, b: seq<Byte>)
      requires Valid()
      modifies this`read, this`ok
      ensures Valid() && good == ok == (old(ok) && TakeSized(old(Left())).Got?)
      ensures good ==> Got(b, Left()) == TakeSized(old(Left()))
    {
      var n;
      good, n := GetSize();
      b := [];
      if good {
        good, b := Take(n);
      }
    }

    /** The lines emitted for one parameter. */
    method GetArg(m: Mode) returns (good: bool, a: Arg)
      requires Valid() && ok
      modifies this`read, this`ok
      ensures Valid() && good == ok == DecodeArg(m, old(Left())).Got?
      ensures good ==> Got(a, Left()) == DecodeArg(m, old(Left()))
    {
      hide TakeBytes, TakeSize, TakeSized, TakeFlag;
      a := Nothing;
      match m
      case Ignore =>
        good := true;
      case Scalar(w) =>
        var b;
        good, b := Take(w);
        a := Num(b);
      case Handle =>
        var h;
        good, h := GetSize();
        a := Ref(h);
      case _ =>
        var has;
        good, has := GetFlag();
        if !good {
          return;
        }
        good, a := GetFlagged(m, has);
    }

    method GetFlagged(m: Mode, has: bool) returns (good: bool, a: Arg)
      requires Valid() && ok && !m.Ignore? && !m.Scalar? && !m.Handle?
      modifies this`read, this`ok
      ensures Valid() && good == ok == DecodeFlagged(m, has, old(Left())).Got?
      ensures good ==> Got(a, Left()) == DecodeFlagged(m, has, old(Left()))
    {
      hide TakeBytes, TakeSize, TakeSized;
      good := true;
      var b;
      match m
      case OutBuffer(_) =>
        var n;
        good, n := GetSize();
        a := Room(has, n);
      case OutScalar(_) => a := Place(has);
      case OutHandle => a := Place(has);
      case PodOut(_) => a := Place(has);
      case Str =>
        a := Text(None);
        if has {
          good, b := GetSized();
          a := Text(Some(b));
        }
      case PodIn(w) =>
        a := Block(None);
        if has {
          good, b := Take(w);
          a := Block(Some(b));
        }
      case InBuffer(_) => good, a := GetBlock(has);
      case Fatbin => good, a := GetBlock(has);
    }

    method GetBlock(has: bool) returns (good: bool, a: Arg)
      requires Valid() && ok
      modifies this`read, this`ok
      ensures Valid() && good == ok == DecodeFlagged(Fatbin, has, old(Left())).Got?
      ensures good ==> Got(a, Left()) == DecodeFlagged(Fatbin, has, old(Left()))
    {
      good, a := true, Block(None);
      if has {
        var b;
        good, b := GetSized();
        a := Block(Some(b));
      }
    }
  }

  /** The generated client stub: the fields of every parameter, in order. */
  method WriteRequest(ms: seq<Mode>, args: seq<Arg>) returns (b: Buffer)
    requires AllFit(ms, args)
    ensures fresh(b) && b.Valid() && b.ok && b.Left() == EncodeArgs(ms, args)
  {
    hide EncodeArg, Fits;
    b := new Buffer([]);
    for i := 0 to |ms|
      invariant b.Valid() && b.ok && fresh(b)
      invariant b.Left() + EncodeArgs(ms[i..], args[i..]) == EncodeArgs(ms, args)
    {
      assert ms[i..][1..] == ms[i + 1..] && args[i..][1..] == args[i + 1..];
      b.Put(EncodeArg(ms[i], args[i]));
    }
  }

  /** The generated server case, up to the driver call: decode everything, check the sizes, pass it on. */
  method ReadRequest(b: Buffer, ms: seq<Mode>) returns (good: bool, args: seq<Arg>, passed: seq<Arg>)
    requires b.Valid() && b.ok
    modifies b`read, b`ok
    ensures b.Valid() && b.ok == DecodeArgs(ms, old(b.Left())).Got?
    ensures b.ok ==> Got(args, b.Left()) == DecodeArgs(ms, old(b.Left())) && AllFit(ms, args)
    ensures good <==> b.ok && SizesOk(ms, args)
    ensures good ==> passed == PassedAll(ms, args)
    ensures good <==> b.ok && forall i :: 0 <= i < |ms| ==>
      && (ms[i].InBuffer? && args[i] != Block(None) ==> Length(args[i]) == Worth(ms, args, i))
      && (ms[i].OutBuffer? && args[i].present ==> 0 < args[i].room == Worth(ms, args, i))
  {
    passed := [];
    good, args := DecodeAll(b, ms);
    if !good {
      return;
    }
    for i := 0 to |ms|
      invariant good <==> forall j :: 0 <= j < i ==> SizeOk(ms[j], args[j], Visible(ms, args))
    {
      if !SizeOk(ms[i], args[i], Visible(ms, args)) {
        good := false;
      }
    }
    passed := PassedAll(ms, args);
    SizesExact(ms, args);
  }

  /**
    A request from the client's stub to the driver call: an honest one is refused exactly when it
    asks for a buffer of no bytes to be filled, and otherwise the driver is called with what the
    client passed, a block of no bytes and an ignored parameter as null.
   */
  method Deliver(ms: seq<Mode>, args: seq<Arg>) returns (good: bool, passed: seq<Arg>)
    requires AllFit(ms, args) && Honest(ms, args)
    ensures good <==> forall i :: 0 <= i < |ms| && ms[i].OutBuffer? && args[i].present ==> args[i].room != 0
    ensures good ==> passed == PassedAll(ms, ReadBackAll(ms, args))
  {
    hide DecodeArgs, EncodeArgs, PassedAll, ReadBackAll, SizesOk, Honest;
    var b := WriteRequest(ms, args);
    var decoded;
    assert EncodeArgs(ms, args) + [] == EncodeArgs(ms, args);
    RequestRoundTrip(ms, args, []);
    HonestSizesPass(ms, args);
    good, decoded, passed := ReadRequest(b, ms);
  }

  method DecodeAll(b: Buffer, ms: seq<Mode>) returns (good: bool, args: seq<Arg>)
    requires b.Valid() && b.ok
    modifies b`read, b`ok
    ensures b.Valid() && good == b.ok == DecodeArgs(ms, old(b.Left())).Got?
    ensures good ==> Got(args, b.Left()) == DecodeArgs(ms, old(b.Left())) && AllFit(ms, args)
  {
    hide DecodeArg, Fits;
    args := [];
    ghost var s := b.Left();
    assert ms[0..] == ms;
    OntoNone(DecodeArgs(ms, s));
    for i := 0 to |ms|
      invariant b.Valid() && b.ok && |args| == i && AllFit(ms[..i], args)
      invariant DecodeArgs(ms, s) == Onto(args, DecodeArgs(ms[i..], b.Left()))
    {
      assert ms[i..][1..] == ms[i + 1..];
      ghost var left := b.Left();
      var a;
      good, a := b.GetArg(ms[i]);
      if !good {
        return;
      }
      DecodedFits(ms[i], left);
      OntoNext(args, a, DecodeArgs(ms[i + 1..], b.Left()));
      args := args + [a];
      assert ms[..i + 1] == ms[..i] + [ms[i]];
    }
    good := true;
    assert ms[..|ms|] == ms && args + [] == args;
  }

  /** A parse that began with some arguments already read. */
  function Onto(args: seq<Arg>, r: Read<seq<Arg>>): Read<seq<Arg>> {
    match r
    case Short => Short
    case Got(more, rest) => Got(args + more, rest)
  }

  lemma OntoNone(r: Read<seq<Arg>>)
    ensures Onto([], r) == r
  {
    if r.Got? {
      assert [] + r.value == r.value;
    }
  }

  lemma OntoNext(args: seq<Arg>, a: Arg, r: Read<seq<Arg>>)
    ensures Onto(args, Onto([a], r)) == Onto(args + [a], r)
  {
    if r.Got? {
      assert args + ([a] + r.value) == args + [a] + r.value;
    }
  }

  lemma DecodedFits(m: Mode, s: seq<Byte>)
    ensures DecodeArg(m, s).Got? ==> Fits(m, DecodeArg(m, s).value)
  {
  }
}
