/**
  Reading and writing whole frames over a stream socket (common/net.h). The socket moves as many
  bytes as it likes at a time, may be interrupted, and may fail; what that does is decided by
  the socket and not by the code that uses it.
 */
module Sockets {
  import opened Wire
  import opened Bytes
  import opened Framing

  const READ_BUFFER_BYTES: nat := 65536

  datatype Moved = Bytes(n: nat) | Interrupted | Ended

  /** memcpy of `data` into out[from..]. */
  method Fill(out: array<Byte>, from: nat, data: seq<Byte>)
    requires from + |data| <= out.Length
    modifies out
    ensures out[..] == old(out[..from]) + data + old(out[from + |data|..])
  {
    ghost var before := out[..];
    for i := 0 to |data|
      invariant forall j :: 0 <= j < out.Length ==>
                  out[j] == if from <= j < from + i then data[j - from] else before[j]
    {
      out[from + i] := data[i];
    }
  }

  /** One end of a connection. `interrupts` is how many more EINTRs there will be. */
  class Socket {
    var incoming: seq<Byte>   // sent by the peer and not yet received
    var outgoing: seq<Byte>   // accepted for sending, in order
    var interrupts: nat
    var failed: bool          // a call has failed for a reason other than the peer closing

    constructor (incoming: seq<Byte>, interrupts: nat)
      ensures this.incoming == incoming && this.interrupts == interrupts
      ensures outgoing == [] && !failed
    {
      this.incoming, this.outgoing, this.interrupts, this.failed := incoming, [], interrupts, false;
    }

    /** ::recv into out[from..to): at least one byte, as many as the socket has ready. */
    method Receive(out: array<Byte>, from: nat, to: nat) returns (r: Moved)
      requires from < to <= out.Length
      modifies this`incoming, this`interrupts, this`failed, out
      ensures r.Bytes? ==>
        && 1 <= r.n <= to - from && r.n <= |old(incoming)|
        && incoming == old(incoming)[r.n..]
        && out[..] == old(out[..from]) + old(incoming)[..r.n] + old(out[from + r.n..])
      ensures !r.Bytes? ==> incoming == old(incoming) && out[..] == old(out[..])
      ensures r.Interrupted? ==> interrupts < old(interrupts)
      ensures !r.Interrupted? ==> interrupts == old(interrupts)
      ensures failed == (old(failed) || (r.Ended? && incoming != []))
    {
      var interrupted: bool, broken: bool := *, *;
      if interrupts > 0 && interrupted {
        interrupts := interrupts - 1;
        return Interrupted;
      }
      if incoming == [] || broken {
        failed := failed || incoming != [];
        return Ended;
      }
      var n: nat :| 1 <= n <= to - from && n <= |incoming|;
      Fill(out, from, incoming[..n]);
      incoming := incoming[n..];
      return Bytes(n);
    }

    /** ::sendmsg of the parts, in order: at least one byte of what is left, if any. */
    method Send(parts: seq<seq<Byte>>) returns (r: Moved)
      requires Joined(parts) != []
      modifies this`outgoing, this`interrupts, this`failed
      ensures r.Bytes? ==>
        1 <= r.n <= |Joined(parts)| && outgoing == old(outgoing) + Joined(parts)[..r.n] && failed == old(failed)
      ensures !r.Bytes? ==> outgoing == old(outgoing)
      ensures r.Interrupted? ==> interrupts < old(interrupts) && failed == old(failed)
      ensures !r.Interrupted? ==> interrupts == old(interrupts)
      ensures r.Ended? ==> failed
    {
      var interrupted: bool, broken: bool := *, *;
      if interrupts > 0 && interrupted {
        interrupts := interrupts - 1;
        return Interrupted;
      }
      if broken {
        failed := true;
        return Ended;
      }
      var all := Joined(parts);
      var n: nat :| 1 <= n <= |all|;
      outgoing := outgoing + all[..n];
      return Bytes(n);
    }
  }

  /** read_exact: the whole of out[from..], or false. */
  method ReadExact(s: Socket, out: array<Byte>, from: nat) returns (ok: bool)
    requires from <= out.Length
    modifies s`incoming, s`interrupts, s`failed, out
    ensures ok ==>
      var n := out.Length - from;
      n <= |old(s.incoming)| && s.incoming == old(s.incoming)[n..] && s.failed == old(s.failed)
      && out[..] == old(out[..from]) + old(s.incoming)[..n]
    ensures !ok ==> s.failed || |old(s.incoming)| < out.Length - from
  {
    ghost var all, before := s.incoming, out[..];
    var p := from;
    while p < out.Length
      invariant from <= p <= out.Length && p - from <= |all|
      invariant s.incoming == all[p - from..] && s.failed == old(s.failed)
      invariant out[..] == before[..from] + all[..p - from] + before[p..]
      decreases out.Length - p, s.interrupts
    {
      var r := s.Receive(out, p, out.Length);
      match r {
        case Bytes(n) =>
          Advance(before, all, from, p, n, out[..]);
          p := p + n;
        case Interrupted =>
        case Ended => return false;
      }
    }
    return true;
  }

  lemma Advance(before: seq<Byte>, all: seq<Byte>, from: nat, p: nat, n: nat, now: seq<Byte>)
    requires from <= p && p + n <= |before| && p - from + n <= |all|
    requires var was := before[..from] + all[..p - from] + before[p..];
             now == was[..p] + all[p - from..][..n] + was[p + n..]
    ensures now == before[..from] + all[..p - from + n] + before[p + n..]
    ensures all[p - from..][n..] == all[p - from + n..]
  {
    var was := before[..from] + all[..p - from] + before[p..];
    assert was[..p] == before[..from] + all[..p - from];
    assert was[p + n..] == before[p + n..];
    assert all[..p - from] + all[p - from..][..n] == all[..p - from + n];
  }

  /** write_exact: all of `data`, in order, or false. */
  method WriteExact(s: Socket, data: seq<Byte>) returns (ok: bool)
    modifies s`outgoing, s`interrupts, s`failed
    ensures ok ==> s.outgoing == old(s.outgoing) + data && s.failed == old(s.failed)
    ensures !ok ==> s.failed && old(s.outgoing) <= s.outgoing <= old(s.outgoing) + data
  {
    ghost var goal := s.outgoing + data;
    var rest := data;
    while rest != []
      invariant old(s.outgoing) <= s.outgoing && s.outgoing + rest == goal && s.failed == old(s.failed)
      decreases |rest|, s.interrupts
    {
      ghost var before := s.outgoing;
      JoinedPair(rest, []);
      var r := s.Send([rest]);
      match r {
        case Bytes(n) =>
          SplitAt(before, rest, n);
          rest := rest[n..];
        case Interrupted =>
        case Ended =>
          return false;
      }
    }
    return true;
  }

  /** write_two: the header and the payload as one message, however it is split. */
  method WriteTwo(s: Socket, a: seq<Byte>, b: seq<Byte>) returns (ok: bool)
    modifies s`outgoing, s`interrupts, s`failed
    ensures ok ==> s.outgoing == old(s.outgoing) + a + b && s.failed == old(s.failed)
    ensures !ok ==> s.failed && old(s.outgoing) <= s.outgoing <= old(s.outgoing) + a + b
  {
    var parts: seq<seq<Byte>> := if b != [] then [a, b] else [a];
    var left := |a| + |b|;
    ghost var goal := s.outgoing + a + b;
    JoinedPair(a, b);
    assert s.outgoing + (a + b) == goal;
    while left > 0
      invariant left == |Joined(parts)|
      invariant old(s.outgoing) <= s.outgoing && s.outgoing + Joined(parts) == goal && s.failed == old(s.failed)
      decreases left, s.interrupts
    {
      ghost var before, rest := s.outgoing, Joined(parts);
      var r := s.Send(parts);
      match r {
        case Bytes(n) =>
          SplitAt(before, rest, n);
          parts := StepPast(parts, n);
          left := left - n;
        case Interrupted =>
        case Ended =>
          return false;
      }
    }
    return true;
  }

  lemma SplitAt(before: seq<Byte>, rest: seq<Byte>, n: nat)
    requires n <= |rest|
    ensures before + rest[..n] + rest[n..] == before + rest
  {
    assert rest[..n] + rest[n..] == rest;
  }

  lemma JoinedPair(a: seq<Byte>, b: seq<Byte>)
    ensures Joined([a, b]) == a + b && Joined([a]) == a
  {
    JoinedOne(a);
    JoinedOne(b);
    assert [a, b] == [a] + [b];
    JoinedAppend([a], [b]);
  }

  /** Steps past what went: whole parts dropped, and the front of the next one. */
  method StepPast(parts: seq<seq<Byte>>, sent: nat) returns (rest: seq<seq<Byte>>)
    requires sent <= |Joined(parts)|
    ensures Joined(rest) == Joined(parts)[sent..]
  {
    rest := parts;
    var left := sent;
    assert Joined(parts)[0..] == Joined(parts);
    while left > 0 && |rest| > 0
      invariant 0 <= left <= sent && left <= |Joined(rest)|
      invariant Joined(rest)[left..] == Joined(parts)[sent..]
      decreases |rest|, left
    {
      JoinedFront(rest);
      if left >= |rest[0]| {
        left := left - |rest[0]|;
        rest := rest[1..];
      } else {
        ghost var was := rest;
        rest := rest[0 := rest[0][left..]];
        JoinedFront(rest);
        assert rest[1..] == was[1..];
        left := 0;
        break;
      }
    }
    assert left == 0;
  }

  lemma {:induction false} JoinedFront<T>(parts: seq<seq<T>>)
    requires parts != []
    ensures Joined(parts) == parts[0] + Joined(parts[1..])
  {
    JoinedAppend([parts[0]], parts[1..]);
    assert [parts[0]] + parts[1..] == parts;
    JoinedOne(parts[0]);
  }

  /** Reads frames from a socket through a buffer, or past it when a piece is large. */
  class FrameReader {
    const socket: Socket
    const buf: array<Byte>
    var begin: nat
    var end: nat

    ghost predicate Valid()
      reads this
    {
      buf.Length == READ_BUFFER_BYTES && begin <= end <= buf.Length
    }

    /** What this reader has yet to hand out: what is buffered, then what is still to arrive. */
    ghost function Ahead(): seq<Byte>
      requires Valid()
      reads this, buf, socket
    {
      buf[begin..end] + socket.incoming
    }

    constructor (s: Socket)
      ensures Valid() && socket == s && fresh(buf) && Ahead() == s.incoming
    {
      socket, begin, end := s, 0, 0;
      buf := new Byte[READ_BUFFER_BYTES];
    }

    /** Nothing is buffered: receive as much as there is into the buffer. */
    method Refill() returns (r: Moved)
      requires Valid() && begin == end
      modifies this, buf, socket`incoming, socket`interrupts, socket`failed
      ensures Valid() && Ahead() == old(Ahead())
      ensures r.Bytes? ==> begin < end
      ensures !r.Bytes? ==> begin == end
      ensures r.Interrupted? ==> socket.interrupts < old(socket.interrupts)
      ensures socket.failed == (old(socket.failed) || (r.Ended? && Ahead() != []))
    {
      r := socket.Receive(buf, 0, buf.Length);
      if r.Bytes? {
        begin, end := 0, r.n;
        assert buf[0..r.n] == buf[..][0..r.n];
      }
    }

    /** Moves what is buffered, as far as it is wanted, into out[at..]. */
    method TakeBuffered(out: array<Byte>, at: nat) returns (taken: nat)
      requires Valid() && out != buf && at < out.Length && begin < end
      modifies this, out
      ensures Valid() && 1 <= taken <= out.Length - at && taken <= |old(Ahead())|
      ensures out[..at + taken] == old(out[..at]) + old(Ahead())[..taken]
      ensures Ahead() == old(Ahead())[taken..]
    {
      taken := if out.Length - at < end - begin then out.Length - at else end - begin;
      ghost var data := buf[begin..begin + taken];
      Fill(out, at, buf[begin..begin + taken]);
      assert Ahead()[..taken] == data;
      assert out[..at + taken] == out[..][..at + taken];
      begin := begin + taken;
    }

    /** FrameReader::read: fills `out` with the next bytes of the stream. */
    method Read(out: array<Byte>) returns (ok: bool)
      requires Valid() && out != buf
      modifies this, buf, socket`incoming, socket`interrupts, socket`failed, out
      ensures Valid()
      ensures ok ==>
        && out.Length <= |old(Ahead())| && out[..] == old(Ahead())[..out.Length]
        && Ahead() == old(Ahead())[out.Length..] && socket.failed == old(socket.failed)
      ensures !ok ==> socket.failed || |old(Ahead())| < out.Length
    {
      ghost var all := Ahead();
      var p := 0;
      while p < out.Length
        invariant Valid() && 0 <= p <= out.Length && p <= |all|
        invariant Ahead() == all[p..] && out[..p] == all[..p] && socket.failed == old(socket.failed)
        decreases out.Length - p, if begin == end then 1 else 0, socket.interrupts
      {
        if begin == end {
          if out.Length - p >= buf.Length {
            ok := ReadDirect(out, p, all);
            return;
          }
          var r := Refill();
          match r {
            case Bytes(_) =>
            case Interrupted => continue;
            case Ended => return false;
          }
        }
        var taken := TakeBuffered(out, p);
        assert all[..p] + all[p..][..taken] == all[..p + taken];
        p := p + taken;
      }
      assert out[..] == out[..p];
      return true;
    }

    /** With the buffer empty, as much as the buffer could hold is read past it, by `ReadExact`. */
    method ReadDirect(out: array<Byte>, p: nat, ghost all: seq<Byte>) returns (ok: bool)
      requires Valid() && out != buf && begin == end && p <= out.Length && p <= |all|
      requires Ahead() == all[p..] && out[..p] == all[..p]
      modifies socket`incoming, socket`interrupts, socket`failed, out
      ensures Valid()
      ensures ok ==>
        && out.Length <= |all| && out[..] == all[..out.Length]
        && Ahead() == all[out.Length..] && socket.failed == old(socket.failed)
      ensures !ok ==> socket.failed || |all| < out.Length
    {
      assert socket.incoming == all[p..];
      ok := ReadExact(socket, out, p);
      if ok {
        assert all[..p] + all[p..][..out.Length - p] == all[..out.Length];
      }
    }

    /** FrameReader::recv_frame for requests. */
    method NextFrame() returns (ok: bool, frame: Received)
      requires Valid()
      modifies this, buf, socket`incoming, socket`interrupts, socket`failed
      ensures Valid()
      ensures ok ==>
        && Complete(old(Ahead())) && frame == Front(old(Ahead()))
        && Ahead() == old(Ahead())[FrontSize(old(Ahead()))..] && socket.failed == old(socket.failed)
      ensures !ok ==> socket.failed || !Complete(old(Ahead()))
    {
      ghost var all := Ahead();
      frame := Received(Header(0, 0, 0, 0, 0), []);
      var head := new Byte[REQ_HEADER_BYTES];
      ok := Read(head);
      if !ok {
        return;
      }
      var h := head[..];
      HeaderPrefix(all, h);
      if ReadWord(h, 0) != MAGIC_REQ {
        return false, frame;
      }
      var header := DecodeHeader(h);
      var payload := new Byte[header.payloadLen];
      ghost var rest := Ahead();
      ok := Read(payload);
      if ok {
        frame := Received(header, payload[..]);
        assert rest[..header.payloadLen] == all[REQ_HEADER_BYTES..REQ_HEADER_BYTES + header.payloadLen];
        assert rest[header.payloadLen..] == all[REQ_HEADER_BYTES + header.payloadLen..];
      }
    }

    /**
      The serving loop's reads: exactly the frames of the stream, nothing lost, repeated or
      reordered, however the socket cut it up - all of them unless the socket failed.
     */
    method ReadAll() returns (frames: seq<Received>)
      requires Valid()
      modifies this, buf, socket`incoming, socket`interrupts, socket`failed
      ensures frames <= Frames(old(Ahead()))
      ensures !socket.failed ==> frames == Frames(old(Ahead()))
    {
      ghost var all := Ahead();
      frames := [];
      while true
        invariant Valid() && Frames(all) == frames + Frames(Ahead())
        decreases |Ahead()|
      {
        ghost var ahead := Ahead();
        var ok, frame := NextFrame();
        if !ok {
          return;
        }
        assert Frames(ahead) == [frame] + Frames(Ahead());
        assert frames + ([frame] + Frames(Ahead())) == frames + [frame] + Frames(Ahead());
        frames := frames + [frame];
      }
    }
  }

  lemma HeaderPrefix(all: seq<Byte>, h: seq<Byte>)
    requires |all| >= REQ_HEADER_BYTES == |h| && h == all[..REQ_HEADER_BYTES]
    ensures ReadWord(all, 0) == ReadWord(h, 0) && DecodeHeader(all) == DecodeHeader(h)
  {
    assert all[0..4] == h[0..4];
    assert all[4..8] == h[4..8];
    assert all[8..12] == h[8..12];
    assert all[12..16] == h[12..16];
    assert all[16..20] == h[16..20];
    assert all[20..24] == h[20..24];
  }
}
