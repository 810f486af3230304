/**
  What CUDA promises one thread about its contexts, and how a saved stack may stand for it.

  A context has an address, which the driver may hand out again once the context is destroyed,
  and an identity, which is never used twice. A thread's stack is a sequence of contexts; what
  the server keeps of it is a sequence of addresses, each marked gone or not
  (server/client_threads.h).
 */
module Contexts {
  import opened ThreadTable

  // A CUcontext; 0 is the null handle.
  type Addr = nat
  // Which context it is; 0 is no context that ever existed.
  type Ident = nat

  datatype Mode = Global | ThreadLocal | Relaxed

  datatype Result = Success | InvalidContext | InvalidValue | ContextIsDestroyed | OtherError

  /** One entry of a thread's stack, as CUDA knows it. */
  datatype Held = Held(ctx: Addr, ident: Ident)

  /** One entry of a client thread's stack, as the server saves it. */
  datatype Saved = Saved(ctx: Addr, gone: bool)

  /** The address still names the context it named when it was selected. */
  predicate Names(alive: map<Addr, Ident>, h: Held) {
    h.ctx in alive && alive[h.ctx] == h.ident
  }

  /** The context an address names now. */
  function Bind(alive: map<Addr, Ident>, a: Addr): Held {
    Held(a, if a in alive then alive[a] else 0)
  }

  function Dropped<T>(s: seq<T>): seq<T> {
    if s == [] then [] else s[..|s| - 1]
  }

  function Replaced<T>(s: seq<T>, x: T): seq<T> {
    Dropped(s) + [x]
  }

  function Last<T>(s: seq<T>): T
    requires s != []
  {
    s[|s| - 1]
  }

  // --- one thread's own stack, as CUDA documents it --------------------------

  /** All the threads of one client, each with a stack and a capture mode of its own. */
  datatype World = World(alive: map<Addr, Ident>, made: nat,
                         stacks: map<ThreadId, seq<Held>>, modes: map<ThreadId, Mode>)

  datatype Call =
    | SetCurrent(ctx: Addr)
    | Push(ctx: Addr)
    | Pop
    | GetCurrent
    | Create(at: Addr)     // `at` is the address the driver has for it
    | Destroy(ctx: Addr)
    | ExchangeMode(mode: Mode)
    | Work                 // any call that needs a current context

  datatype Answer =
    | Done(result: Result)
    | Named(ctx: Addr)
    | WasIn(mode: Mode)
    | RanIn(ident: Ident)  // the context the call ran in

  /** Destroying the caller's current context pops it; to every other thread it stays current. */
  function AfterDestroy(alive: map<Addr, Ident>, s: seq<Held>, a: Addr): seq<Held> {
    if s != [] && Last(s).ctx == a && Names(alive, Last(s)) then Dropped(s) else s
  }

  /** One call of thread `id`, on a thread whose stack holds at most `cap` contexts. */
  function Step(w: World, id: ThreadId, call: Call, cap: nat): (World, Answer)
    requires id in w.stacks && id in w.modes
  {
    var s := w.stacks[id];
    match call
    case SetCurrent(a) =>
      if a == 0 then (w.(stacks := w.stacks[id := Dropped(s)]), Done(Success))
      else (w.(stacks := w.stacks[id := Replaced(s, Bind(w.alive, a))]), Done(Success))
    case Push(a) =>
      if a == 0 then (w, Done(InvalidContext))
      else if |s| >= cap then (w, Done(InvalidValue))
      else (w.(stacks := w.stacks[id := s + [Bind(w.alive, a)]]), Done(Success))
    case Pop =>
      if s == [] then (w, Done(InvalidContext))
      else (w.(stacks := w.stacks[id := Dropped(s)]), Named(Last(s).ctx))
    case GetCurrent =>
      (w, Named(if s == [] then 0 else Last(s).ctx))
    case Create(a) =>
      if |s| >= cap then (w, Done(InvalidValue))
      else if a == 0 || a in w.alive then (w, Done(OtherError))
      else
        (w.(alive := w.alive[a := w.made + 1], made := w.made + 1,
            stacks := w.stacks[id := s + [Held(a, w.made + 1)]]), Named(a))
    case Destroy(a) =>
      if a !in w.alive then (w, Done(InvalidContext))
      else
        (w.(alive := w.alive - {a}, stacks := w.stacks[id := AfterDestroy(w.alive, s, a)]), Done(Success))
    case ExchangeMode(m) =>
      (w.(modes := w.modes[id := m]), WasIn(w.modes[id]))
    case Work =>
      if s == [] then (w, Done(InvalidContext))
      else if Names(w.alive, Last(s)) then (w, RanIn(Last(s).ident))
      else (w, Done(ContextIsDestroyed))
  }

  /** A thread seen for the first time has no context and the default mode. */
  function Known(w: World, id: ThreadId): World {
    if id in w.stacks && id in w.modes then w
    else w.(stacks := w.stacks[id := []], modes := w.modes[id := Global])
  }

  function Forgets(w: World, id: ThreadId): World {
    w.(stacks := w.stacks - {id}, modes := w.modes - {id})
  }

  /** Whether the call selects a handle that names no context. */
  predicate SelectsDead(w: World, id: ThreadId, call: Call, cap: nat)
    requires id in w.stacks
  {
    match call
    case SetCurrent(a) => a != 0 && a !in w.alive
    case Push(a) => a != 0 && |w.stacks[id]| < cap && a !in w.alive
    case _ => false
  }

  /** What happens to the threads' contexts. */
  datatype Event =
    | Request(thread: ThreadId, call: Call)  // a call carried out for its thread
    | Replied(result: Result)                // a request answered before it reached any context
    | Seat(thread: ThreadId)                 // a thread is known
    | Forgotten(thread: ThreadId)            // a thread is forgotten, and starts anew if it comes back
    | Elsewhere(at: Addr)                    // a context made elsewhere in the process

  /** Another session's context, or a primary one retained: alive, and nobody's here until selected. */
  function Appears(w: World, a: Addr): World {
    if a == 0 || a in w.alive then w else w.(alive := w.alive[a := w.made + 1], made := w.made + 1)
  }

  /** One event, and the answer if it is a request. */
  function Happens(w: World, e: Event, cap: nat): (World, seq<Answer>) {
    match e
    case Request(id, call) =>
      var after := Step(Known(w, id), id, call, cap);
      (after.0, [after.1])
    case Replied(r) => (w, [Done(r)])
    case Seat(id) => (Known(w, id), [])
    case Forgotten(id) => (Forgets(w, id), [])
    case Elsewhere(a) => (Appears(w, a), [])
  }

  /** A whole run, in the order things happen; the answers are those to its requests. */
  function Run(w: World, events: seq<Event>, cap: nat): (World, seq<Answer>) {
    if events == [] then (w, [])
    else
      var before := Run(w, events[..|events| - 1], cap);
      var after := Happens(before.0, Last(events), cap);
      (after.0, before.1 + after.1)
  }

  /** No request of the run selects a handle that names no context at that moment. */
  ghost predicate SelectsOnlyLive(w: World, events: seq<Event>, cap: nat) {
    events == [] ||
    var before, e := Run(w, events[..|events| - 1], cap), Last(events);
    && SelectsOnlyLive(w, events[..|events| - 1], cap)
    && (e.Request? ==> !SelectsDead(Known(before.0, e.thread), e.thread, e.call, cap))
  }

  /** One run after another. */
  lemma {:induction false} RunAppend(w: World, a: seq<Event>, b: seq<Event>, cap: nat)
    ensures var r := Run(w, a, cap); var t := Run(r.0, b, cap); Run(w, a + b, cap) == (t.0, r.1 + t.1)
    ensures Run(w, a, cap).1 == [] ==> Run(w, a + b, cap) == Run(Run(w, a, cap).0, b, cap)
    ensures SelectsOnlyLive(w, a + b, cap) <==> SelectsOnlyLive(w, a, cap) && SelectsOnlyLive(Run(w, a, cap).0, b, cap)
    decreases |b|
  {
    if b == [] {
      assert a + b == a && Run(w, a, cap).1 + [] == Run(w, a, cap).1;
    } else {
      hide Happens, SelectsDead, Known;
      assert (a + b)[..|a + b| - 1] == a + b[..|b| - 1] && Last(a + b) == Last(b);
      RunAppend(w, a, b[..|b| - 1], cap);
      var r, t := Run(w, a, cap), Run(Run(w, a, cap).0, b[..|b| - 1], cap);
      var last := Happens(t.0, Last(b), cap);
      assert r.1 + t.1 + last.1 == r.1 + (t.1 + last.1);
      assert [] + (t.1 + last.1) == t.1 + last.1;
    }
  }

  lemma RunOne(w: World, e: Event, cap: nat)
    ensures Run(w, [e], cap) == Happens(w, e, cap)
    ensures SelectsOnlyLive(w, [e], cap) <==>
      (e.Request? ==> !SelectsDead(Known(w, e.thread), e.thread, e.call, cap))
  {
    hide Happens, SelectsDead, Known;
    assert [e][..0] == [];
    assert Run(w, [], cap) == (w, []) && [] + Happens(w, e, cap).1 == Happens(w, e, cap).1;
  }

  // --- the server's copy of a stack ------------------------------------------

  ghost predicate Parallel(s: seq<Saved>, h: seq<Held>, made: nat) {
    && |s| == |h|
    && forall i :: 0 <= i < |s| ==> s[i].ctx == h[i].ctx && s[i].ctx != 0 && h[i].ident <= made
  }

  /** An entry saved while its context was alive is marked once that context is destroyed. */
  ghost predicate Safe(s: seq<Saved>, h: seq<Held>, alive: map<Addr, Ident>, made: nat) {
    && Parallel(s, h, made)
    && forall i :: 0 <= i < |s| && h[i].ident != 0 && !Names(alive, h[i]) ==> s[i].gone
  }

  /** Marked exactly when the context it was saved for no longer exists. */
  ghost predicate Exact(s: seq<Saved>, h: seq<Held>, alive: map<Addr, Ident>, made: nat) {
    && Parallel(s, h, made)
    && forall i :: 0 <= i < |s| ==> (s[i].gone <==> !Names(alive, h[i]))
  }

  /** Identities are given out once and are never 0. */
  ghost predicate AliveOk(alive: map<Addr, Ident>, made: nat) {
    && 0 !in alive
    && forall a :: a in alive ==> 1 <= alive[a] <= made
  }

  /** A full scan of one stack: every entry naming `a` is marked. */
  function Marked(s: seq<Saved>, a: Addr): (r: seq<Saved>)
    ensures |r| == |s|
  {
    seq(|s|, i requires 0 <= i < |s| => if s[i].ctx == a then Saved(a, true) else s[i])
  }

  function CtxsOf(s: seq<Saved>): set<Addr> {
    set x | x in s :: x.ctx
  }

  /** The two stacks have the same top, and an unmarked one saved alive is the context its address names. */
  lemma SameTop(s: seq<Saved>, h: seq<Held>, alive: map<Addr, Ident>, made: nat)
    requires Safe(s, h, alive, made)
    ensures |s| == |h| && (s != [] ==> Last(s).ctx == Last(h).ctx && Last(s).ctx != 0)
    ensures s != [] && !Last(s).gone && Last(h).ident != 0 ==> Names(alive, Last(h))
    ensures Exact(s, h, alive, made) && s != [] ==> (Last(s).gone <==> !Names(alive, Last(h)))
  {
  }

  lemma DropKeeps(s: seq<Saved>, h: seq<Held>, alive: map<Addr, Ident>, made: nat)
    requires Safe(s, h, alive, made)
    ensures Safe(Dropped(s), Dropped(h), alive, made)
    ensures Exact(s, h, alive, made) ==> Exact(Dropped(s), Dropped(h), alive, made)
  {
  }

  /** A handle saved on top of a faithful stack leaves it faithful exactly when it names a context. */
  lemma AppendKeeps(s: seq<Saved>, h: seq<Held>, alive: map<Addr, Ident>, made: nat, a: Addr)
    requires Safe(s, h, alive, made) && AliveOk(alive, made) && a != 0
    ensures Safe(s + [Saved(a, false)], h + [Bind(alive, a)], alive, made)
    ensures Exact(s, h, alive, made) ==>
      (Exact(s + [Saved(a, false)], h + [Bind(alive, a)], alive, made) <==> a in alive)
  {
    var s', h' := s + [Saved(a, false)], h + [Bind(alive, a)];
    assert s'[|s|] == Saved(a, false) && h'[|s|] == Bind(alive, a);
  }

  /** A new context takes an address no live context has, so no saved entry comes back to life. */
  lemma CreateKeeps(s: seq<Saved>, h: seq<Held>, alive: map<Addr, Ident>, made: nat, a: Addr)
    requires Safe(s, h, alive, made) && a !in alive
    ensures Safe(s, h, alive[a := made + 1], made + 1)
    ensures Exact(s, h, alive, made) ==> Exact(s, h, alive[a := made + 1], made + 1)
  {
  }

  /** Marking every entry that names a destroyed context keeps the marks right. */
  lemma DestroyKeeps(s: seq<Saved>, h: seq<Held>, alive: map<Addr, Ident>, made: nat, a: Addr)
    requires Safe(s, h, alive, made)
    ensures Safe(Marked(s, a), h, alive - {a}, made)
    ensures Exact(s, h, alive, made) ==> Exact(Marked(s, a), h, alive - {a}, made)
  {
  }

  /**
    The one family the marks do not cover. A handle that is already dead when it is selected is
    saved unmarked, and whatever context is next made at that address is what the thread gets.
   */
  lemma DeadHandleIsMisbound(s: seq<Saved>, h: seq<Held>, alive: map<Addr, Ident>, made: nat, a: Addr)
    requires Exact(s, h, alive, made) && AliveOk(alive, made) && a != 0 && a !in alive
    ensures var s', h', alive' := s + [Saved(a, false)], h + [Bind(alive, a)], alive[a := made + 1];
            && !Last(s').gone && Last(s').ctx == a && alive'[a] == made + 1
            && !Names(alive', Last(h')) && !Exact(s', h', alive', made + 1)
  {
    var s', h' := s + [Saved(a, false)], h + [Bind(alive, a)];
    assert s'[|s|] == Saved(a, false) && h'[|s|] == Held(a, 0);
  }
}
