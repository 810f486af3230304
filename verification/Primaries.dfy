/**
  Primary contexts shared by every session of the server (server/inventory.cpp): the retains each
  session holds, the generations that say whether something made in a primary context still
  exists, and what an expiring session gives back.

  A step is what one thread does between two points where another may run. What is done under
  g_primary_mu is split at the driver call, because making and recording a resource does not take
  that lock. An object carries who made it, where, and in which incarnation of the device's primary
  context; the program knows none of that, only the generation it read before the call.
 */
module Primaries {
  type Dev = nat
  type Handle = nat

  // kEndedGeneration
  const ENDED: nat := 0xFFFF_FFFF_FFFF_FFFF

  datatype Stamp = Stamp(dev: Dev, gen: nat)

  /** Something the driver made: by which session, at which address, in which incarnation. */
  datatype Obj = Obj(owner: nat, handle: Handle, dev: Dev, inc: nat, serial: nat)

  datatype Entry = Entry(st: Stamp, obj: Obj)

  /** Where a session's thread is in a call that makes or frees something. */
  datatype Flight =
    | Idle
    | Stamped(st: Stamp)
    | Made(st: Stamp, handle: Handle, obj: Obj)
    | Freed(handle: Handle)

  datatype Phase = Serving | Expiring | Gone

  datatype Session = Session(
    phase: Phase,
    flight: Flight,
    entries: map<Handle, Entry>,
    retains: map<Dev, nat>,
    owed: map<Dev, nat>,        // what it held when it expired
    released: map<Dev, nat>,    // what expiry has released
    refused: set<Dev>)          // where a release at expiry was refused

  /** Who holds g_primary_mu with the driver's part done, and whether that destroyed the context. */
  datatype Lock =
    | Unlocked
    | Pending(session: nat, dev: Dev, release: bool, died: bool)

  datatype State = State(
    sessions: seq<Session>,
    gen: map<Dev, nat>,         // g_primary_gen
    lock: Lock,
    count: map<Dev, nat>,       // the driver's count of retains
    inc: map<Dev, nat>,         // how often the driver has destroyed the context
    objects: map<Handle, Obj>,  // what exists in the driver
    made: nat,
    over: map<Dev, nat>)        // releases by sessions that held no retain, not yet made good

  /** A table the program reads as 0 where it has no entry. */
  function At(m: map<Dev, nat>, d: Dev): nat {
    if d in m then m[d] else 0
  }

  const NEW_SESSION := Session(Serving, Idle, map[], map[], map[], map[], {})

  const INIT := State([], map[], Unlocked, map[], map[], map[], 0, map[])

  datatype Step =
    | Bind
    | TakeStamp(s: nat, d: Dev)
    | CopyStamp(s: nat, h: Handle)        // stamp_of, from something the session made
    | StampUnknown(s: nat, d: Dev)        // stamp_of, from something it did not
    | Make(s: nat, h: Handle)
    | MakeFails(s: nat)
    | Note(s: nat)
    | Free(s: nat, h: Handle)             // any address: the driver asks nobody whose it is
    | Forget(s: nat)
    | Retain(s: nat, d: Dev)
    | Release(s: nat, d: Dev)
    | Reset(s: nat, d: Dev)
    | Record(readable: bool)              // whether cuDevicePrimaryCtxGetState answered
    | Expire(s: nat)
    | ExpireEntry(s: nat, h: Handle)
    | ExpireRelease(s: nat, d: Dev)
    | Unbind(s: nat)

  predicate IsLive(st: State, s: nat) {
    s < |st.sessions| && st.sessions[s].phase == Serving && st.sessions[s].flight == Idle
  }

  predicate IsExpiring(st: State, s: nat) {
    s < |st.sessions| && st.sessions[s].phase == Expiring && st.sessions[s].flight == Idle
  }

  /** The session whose thread is in the middle of a primary-context call takes no other step. */
  predicate Busy(lock: Lock, s: nat) {
    lock.Pending? && lock.session == s
  }

  function Bound(sessions: seq<Session>): nat {
    if sessions == [] then 0
    else Bound(sessions[..|sessions| - 1]) + if sessions[|sessions| - 1].phase == Gone then 0 else 1
  }

  /** unless_destroyed, for something made in a primary context. */
  predicate StillCurrent(gen: map<Dev, nat>, st: Stamp) {
    st.gen != ENDED && At(gen, st.dev) == st.gen
  }

  predicate Enabled(st: State, step: Step) {
    match step
    case Bind => !(st.lock.Pending? && !st.lock.release)
    case TakeStamp(s, d) => IsLive(st, s) && !Busy(st.lock, s)
    case CopyStamp(s, h) => IsLive(st, s) && !Busy(st.lock, s) && h in st.sessions[s].entries
    case StampUnknown(s, d) => IsLive(st, s) && !Busy(st.lock, s)
    case Make(s, h) =>
      && s < |st.sessions| && st.sessions[s].flight.Stamped?
      && At(st.count, st.sessions[s].flight.st.dev) > 0 && h !in st.objects
    case MakeFails(s) => s < |st.sessions| && st.sessions[s].flight.Stamped?
    case Note(s) => s < |st.sessions| && st.sessions[s].flight.Made?
    case Free(s, h) => IsLive(st, s) && !Busy(st.lock, s) && h in st.objects
    case Forget(s) => s < |st.sessions| && st.sessions[s].flight.Freed?
    case Retain(s, d) => IsLive(st, s) && st.lock == Unlocked
    case Release(s, d) => IsLive(st, s) && st.lock == Unlocked && At(st.count, d) > 0
    case Reset(s, d) => IsLive(st, s) && st.lock == Unlocked && Bound(st.sessions) <= 1
    case Record(_) => st.lock.Pending? && st.lock.session < |st.sessions|
    case Expire(s) => IsLive(st, s) && !Busy(st.lock, s)
    case ExpireEntry(s, h) => IsExpiring(st, s) && st.lock == Unlocked && h in st.sessions[s].entries
    case ExpireRelease(s, d) =>
      && IsExpiring(st, s) && st.lock == Unlocked && st.sessions[s].entries == map[]
      && At(st.sessions[s].retains, d) > 0 && d !in st.sessions[s].refused
    case Unbind(s) =>
      && IsExpiring(st, s) && !Busy(st.lock, s) && st.sessions[s].entries == map[]
      && forall d :: d in st.sessions[s].retains ==> st.sessions[s].retains[d] == 0
  }

  function With(st: State, s: nat, to: Session): State
    requires s < |st.sessions|
  {
    st.(sessions := st.sessions[s := to])
  }

  /** The context is destroyed, and everything in it. */
  function Destroyed(st: State, d: Dev): State {
    st.(inc := st.inc[d := At(st.inc, d) + 1],
        objects := map h | h in st.objects && st.objects[h].dev != d :: st.objects[h])
  }

  /** The driver's part of a release: the last one in the process destroys the context. */
  function DriverRelease(st: State, s: nat, d: Dev): State
    requires At(st.count, d) > 0
  {
    var left := At(st.count, d) - 1;
    var r := st.(count := st.count[d := left], lock := Pending(s, d, true, left == 0));
    if left == 0 then Destroyed(r, d) else r
  }

  /** note_primary_retain(-1), which never goes below nothing. */
  function Unretained(se: Session, d: Dev): Session {
    var n := At(se.retains, d);
    se.(retains := se.retains[d := if n == 0 then 0 else n - 1])
  }

  /** forget_primary, on the session that made the call. */
  function WithoutStale(se: Session, d: Dev, now: nat): Session {
    se.(entries := map h | h in se.entries && !(se.entries[h].st.dev == d && se.entries[h].st.gen != now)
                     :: se.entries[h])
  }

  function AfterRecord(se: Session, d: Dev, release: bool, died: bool, now: nat): Session {
    var a := if release then Unretained(se, d) else se;
    if a.phase == Expiring then a.(released := a.released[d := At(a.released, d) + 1])
    else if died then WithoutStale(a, d, now) else a
  }

  /** The program's part, under the lock: the retain is given up, and a death is recorded. */
  function Recorded(st: State, s: nat, d: Dev, release: bool, died: bool): State
    requires s < |st.sessions|
  {
    var se := st.sessions[s];
    var gen := if died then st.gen[d := At(st.gen, d) + 1] else st.gen;
    var over := if release && At(se.retains, d) == 0 then st.over[d := At(st.over, d) + 1] else st.over;
    With(st, s, AfterRecord(se, d, release, died, At(gen, d))).(gen := gen, over := over, lock := Unlocked)
  }

  /** The driver makes something: whose it is and in which incarnation are facts of the driver. */
  function Making(st: State, s: nat, stamp: Stamp, h: Handle): State
    requires s < |st.sessions|
  {
    var obj := Obj(s, h, stamp.dev, At(st.inc, stamp.dev), st.made + 1);
    With(st, s, st.sessions[s].(flight := Made(stamp, h, obj)))
      .(objects := st.objects[h := obj], made := st.made + 1)
  }

  function Noted(se: Session): Session
    requires se.flight.Made?
  {
    se.(flight := Idle, entries := se.entries[se.flight.handle := Entry(se.flight.st, se.flight.obj)])
  }

  function Retained(st: State, s: nat, d: Dev): State
    requires s < |st.sessions|
  {
    var se := st.sessions[s];
    With(st, s, se.(retains := se.retains[d := At(se.retains, d) + 1]))
      .(count := st.count[d := At(st.count, d) + 1])
  }

  /** One entry at expiry: given back if its generation is the device's still, and otherwise skipped. */
  function Expired(st: State, s: nat, h: Handle): State
    requires s < |st.sessions| && h in st.sessions[s].entries
  {
    var e := st.sessions[s].entries[h];
    var after := With(st, s, st.sessions[s].(entries := st.sessions[s].entries - {h}));
    if StillCurrent(st.gen, e.st) then after.(objects := st.objects - {h}) else after
  }

  /** The driver counts no retain any more: the session gives up on the rest of its own. */
  function ReleaseRefused(st: State, s: nat, d: Dev): State
    requires s < |st.sessions|
  {
    var se := st.sessions[s];
    var lost := At(se.retains, d);
    With(st, s, se.(retains := se.retains[d := 0], refused := se.refused + {d}))
      .(over := st.over[d := if At(st.over, d) >= lost then At(st.over, d) - lost else 0])
  }

  function Apply(st: State, step: Step): State
    requires Enabled(st, step)
  {
    match step
    case Bind => st.(sessions := st.sessions + [NEW_SESSION])
    case TakeStamp(s, d) => With(st, s, st.sessions[s].(flight := Stamped(Stamp(d, At(st.gen, d)))))
    case CopyStamp(s, h) => With(st, s, st.sessions[s].(flight := Stamped(st.sessions[s].entries[h].st)))
    case StampUnknown(s, d) => With(st, s, st.sessions[s].(flight := Stamped(Stamp(d, ENDED))))
    case Make(s, h) => Making(st, s, st.sessions[s].flight.st, h)
    case MakeFails(s) => With(st, s, st.sessions[s].(flight := Idle))
    case Note(s) => With(st, s, Noted(st.sessions[s]))
    case Free(s, h) =>
      With(st, s, st.sessions[s].(flight := Freed(h))).(objects := st.objects - {h})
    case Forget(s) =>
      var f := st.sessions[s].flight;
      With(st, s, st.sessions[s].(flight := Idle, entries := st.sessions[s].entries - {f.handle}))
    case Retain(s, d) => Retained(st, s, d)
    case Release(s, d) => DriverRelease(st, s, d)
    case Reset(s, d) => Destroyed(st.(lock := Pending(s, d, false, true)), d)
    case Record(readable) =>
      Recorded(st, st.lock.session, st.lock.dev, st.lock.release, st.lock.died && (readable || !st.lock.release))
    case Expire(s) => With(st, s, st.sessions[s].(phase := Expiring, owed := st.sessions[s].retains))
    case ExpireEntry(s, h) => Expired(st, s, h)
    case ExpireRelease(s, d) =>
      if At(st.count, d) > 0 then DriverRelease(st, s, d)
      else ReleaseRefused(st, s, d)
    case Unbind(s) => With(st, s, st.sessions[s].(phase := Gone))
  }
}
