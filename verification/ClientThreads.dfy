/**
  One serving thread in place of every client thread (server/client_threads.cpp): the slots, the
  one-entry view kept in the driver, the intercepted calls, and the sweep.
 */
module ClientThreads {
  import opened ThreadTable
  import opened Seats
  import opened Contexts
  import opened Admission

  /** What the driver does to the stack of the thread that calls cuCtxSetCurrent. */
  function AfterSet(stack: seq<Addr>, a: Addr): seq<Addr> {
    if a == 0 then Dropped(stack) else Replaced(stack, a)
  }

  function Current(stack: seq<Addr>): Addr {
    if stack == [] then 0 else Last(stack)
  }

  /**
    The CUDA driver, as the serving thread sees it. A driver that is not obliging may refuse to
    switch context or mode, and may leave a destroyed context current.
   */
  class Driver {
    const obliging: bool
    var stack: seq<Addr>
    var mode: Mode
    var alive: map<Addr, Ident>
    var made: nat

    ghost predicate Valid()
      reads this
    {
      0 !in stack && AliveOk(alive, made)
    }

    constructor (obliging: bool)
      ensures Valid() && this.obliging == obliging && stack == [] && mode == Global && alive == map[] && made == 0
    {
      this.obliging := obliging;
      stack, mode, alive, made := [], Global, map[], 0;
    }

    /** Accepts any handle, a destroyed one included; null pops. */
    method SetCurrent(a: Addr) returns (r: Result)
      requires Valid()
      modifies this`stack
      ensures Valid()
      ensures r == Success ==> stack == AfterSet(old(stack), a)
      ensures r != Success ==> stack == old(stack) && !obliging
    {
      var refuses: bool := *;
      if refuses && !obliging {
        return OtherError;
      }
      stack := AfterSet(stack, a);
      return Success;
    }

    method PopCurrent() returns (r: Result, a: Addr)
      requires Valid()
      modifies this`stack
      ensures Valid() && stack == Dropped(old(stack)) && a == Current(old(stack))
      ensures r == if old(stack) == [] then InvalidContext else Success
    {
      r, a := if stack == [] then InvalidContext else Success, Current(stack);
      stack := Dropped(stack);
    }

    method Create(at: Addr) returns (r: Result)
      requires Valid()
      modifies this`stack, this`alive, this`made
      ensures Valid()
      ensures r == if at == 0 || at in old(alive) then OtherError else Success
      ensures r == Success ==>
        stack == old(stack) + [at] && made == old(made) + 1 && alive == old(alive)[at := made]
      ensures r != Success ==> stack == old(stack) && made == old(made) && alive == old(alive)
    {
      if at == 0 || at in alive {
        return OtherError;
      }
      made := made + 1;
      alive := alive[at := made];
      stack := stack + [at];
      return Success;
    }

    /** A context made by another thread of the process; the serving thread's own stack is untouched. */
    method MadeElsewhere(at: Addr)
      requires Valid()
      modifies this`alive, this`made
      ensures Valid()
      ensures if at == 0 || at in old(alive) then alive == old(alive) && made == old(made)
              else made == old(made) + 1 && alive == old(alive)[at := made]
    {
      if at != 0 && at !in alive {
        made := made + 1;
        alive := alive[at := made];
      }
    }

    method Destroy(a: Addr) returns (r: Result)
      requires Valid()
      modifies this`stack, this`alive
      ensures Valid()
      ensures r == if a in old(alive) then Success else InvalidContext
      ensures alive == old(alive) - {a}
      ensures r != Success || Current(old(stack)) != a ==> stack == old(stack)
      ensures r == Success && Current(old(stack)) == a && obliging ==> stack == Dropped(old(stack))
    {
      if a !in alive {
        return InvalidContext;
      }
      alive := alive - {a};
      var keeps: bool := *;
      if Current(stack) == a && (obliging || !keeps) {
        stack := Dropped(stack);
      }
      return Success;
    }

    /** cuThreadExchangeStreamCaptureMode. */
    method Exchange(m: Mode) returns (r: Result, was: Mode)
      requires Valid()
      modifies this`mode
      ensures was == old(mode)
      ensures r == Success ==> mode == m
      ensures r != Success ==> mode == old(mode) && !obliging
    {
      was := mode;
      var refuses: bool := *;
      if refuses && !obliging {
        return OtherError, was;
      }
      mode := m;
      return Success, was;
    }

    /** A call that needs a context, and runs in the one current if there is one. */
    method Work() returns (ident: Ident)
      requires Valid()
      ensures ident == Bind(alive, Current(stack)).ident
    {
      ident := Bind(alive, Current(stack)).ident;
    }
  }

  datatype ClientThread = ClientThread(stack: seq<Saved>, stackCtxs: set<Addr>, mode: Mode)

  const EMPTY_SLOT := ClientThread([], {}, Global)

  /** The context a thread has on the serving thread: its top, unless that is destroyed. */
  function Shown(stack: seq<Saved>): Addr {
    if stack == [] || Last(stack).gone then 0 else Last(stack).ctx
  }

  /** note_stack_ctxs: the slot with its set of named contexts rebuilt. */
  function WithStack(t: ClientThread, stack: seq<Saved>): ClientThread {
    t.(stack := stack, stackCtxs := CtxsOf(stack))
  }

  /** A thread not seen before has an empty slot. */
  function Admitted(slots: map<ThreadId, ClientThread>, id: ThreadId): map<ThreadId, ClientThread> {
    if id in slots then slots else slots[id := EMPTY_SLOT]
  }

  /**
    What an obliging driver and the slots are left with, whether or not the slots are right about
    which contexts exist: a selected or created context is saved unmarked on the caller's stack,
    and work runs in whatever its top's address names.
   */
  ghost predicate Carried(slots: map<ThreadId, ClientThread>, alive: map<Addr, Ident>, made: nat, cap: nat,
                          id: ThreadId, call: Call, slots': map<ThreadId, ClientThread>,
                          alive': map<Addr, Ident>, made': nat, answer: Answer)
    requires id in slots
  {
    var t := slots[id];
    match call
    case SetCurrent(a) =>
      a != 0 ==> slots' == slots[id := WithStack(t, Replaced(t.stack, Saved(a, false)))]
                 && alive' == alive && made' == made && answer == Done(Success)
    case Create(a) =>
      |t.stack| < cap && a != 0 && a !in alive ==>
        && slots' == slots[id := WithStack(t, t.stack + [Saved(a, false)])]
        && alive' == alive[a := made + 1] && made' == made + 1 && answer == Named(a)
    case Work =>
      var ran := Bind(alive, Shown(t.stack)).ident;
      slots' == slots && alive' == alive && made' == made && (ran != 0 ==> answer == RanIn(ran))
    case _ => true
  }

  ghost predicate SlotsOk(slots: map<ThreadId, ClientThread>, cap: nat) {
    forall id :: id in slots ==> slots[id].stackCtxs == CtxsOf(slots[id].stack) && |slots[id].stack| <= cap
  }

  ghost predicate AllSafe(slots: map<ThreadId, ClientThread>, held: map<ThreadId, seq<Held>>,
                          alive: map<Addr, Ident>, made: nat) {
    && held.Keys == slots.Keys
    && forall id :: id in slots ==> Safe(slots[id].stack, held[id], alive, made)
  }

  ghost predicate AllExact(slots: map<ThreadId, ClientThread>, held: map<ThreadId, seq<Held>>,
                           alive: map<Addr, Ident>, made: nat) {
    && held.Keys == slots.Keys
    && forall id :: id in slots ==> Exact(slots[id].stack, held[id], alive, made)
  }

  function Modes(slots: map<ThreadId, ClientThread>): map<ThreadId, Mode> {
    map id | id in slots :: slots[id].mode
  }

  /** One thread's stack is swept if it ever named the context, and skipped otherwise. */
  method SweepOne(t: ClientThread, a: Addr) returns (r: ClientThread)
    requires t.stackCtxs == CtxsOf(t.stack)
    ensures r == t.(stack := Marked(t.stack, a)) && r.stackCtxs == CtxsOf(r.stack)
  {
    if a !in t.stackCtxs {
      assert forall i :: 0 <= i < |t.stack| ==> t.stack[i].ctx in CtxsOf(t.stack);
      assert Marked(t.stack, a) == t.stack;
      return t;
    }
    var s := t.stack;
    for i := 0 to |s|
      invariant |s| == |t.stack|
      invariant forall k :: 0 <= k < i ==> s[k] == Marked(t.stack, a)[k]
      invariant forall k :: i <= k < |s| ==> s[k] == t.stack[k]
    {
      if !s[i].gone && s[i].ctx == a {
        s := s[i := s[i].(gone := true)];
      }
    }
    assert s == Marked(t.stack, a);
    MarkedCtxs(t.stack, a);
    r := t.(stack := s);
  }

  lemma MarkedCtxs(s: seq<Saved>, a: Addr)
    ensures CtxsOf(Marked(s, a)) == CtxsOf(s)
  {
    var m := Marked(s, a);
    forall c ensures c in CtxsOf(m) <==> c in CtxsOf(s) {
      if c in CtxsOf(m) {
        var i :| 0 <= i < |m| && m[i].ctx == c;
        assert s[i] in s && s[i].ctx == c;
      }
      if c in CtxsOf(s) {
        var i :| 0 <= i < |s| && s[i].ctx == c;
        assert m[i] in m && m[i].ctx == c;
      }
    }
  }

  /** A full scan of every stack. */
  function SweptAll(slots: map<ThreadId, ClientThread>, a: Addr): map<ThreadId, ClientThread> {
    map id | id in slots :: slots[id].(stack := Marked(slots[id].stack, a))
  }

  /** The filtered sweep marks exactly what a full scan of all stacks would. */
  method Sweep(slots: map<ThreadId, ClientThread>, a: Addr, ghost cap: nat) returns (r: map<ThreadId, ClientThread>)
    requires SlotsOk(slots, cap)
    ensures r == SweptAll(slots, a) && SlotsOk(r, cap)
  {
    r := slots;
    var left := slots.Keys;
    while left != {}
      invariant left <= slots.Keys == r.Keys
      invariant forall id :: id in slots ==>
        && r[id] == (if id in left then slots[id] else slots[id].(stack := Marked(slots[id].stack, a)))
        && r[id].stackCtxs == CtxsOf(r[id].stack)
      decreases |left|
    {
      var id :| id in left;
      var t := SweepOne(r[id], a);
      r := r[id := t];
      left := left - {id};
    }
  }

  /** Changing one thread's slot leaves the others as they were. */
  lemma OneSlot(slots: map<ThreadId, ClientThread>, held: map<ThreadId, seq<Held>>, alive: map<Addr, Ident>,
                made: nat, cap: nat, id: ThreadId, t: ClientThread, h: seq<Held>)
    requires SlotsOk(slots, cap) && AllSafe(slots, held, alive, made)
    requires t.stackCtxs == CtxsOf(t.stack) && |t.stack| <= cap && Safe(t.stack, h, alive, made)
    ensures SlotsOk(slots[id := t], cap) && AllSafe(slots[id := t], held[id := h], alive, made)
    ensures AllExact(slots, held, alive, made) ==>
      (AllExact(slots[id := t], held[id := h], alive, made) <==> Exact(t.stack, h, alive, made))
    ensures Modes(slots[id := t]) == Modes(slots)[id := t.mode]
  {
    hide Safe, Exact, CtxsOf;
    var slots', held' := slots[id := t], held[id := h];
    if AllExact(slots', held', alive, made) {
      assert Exact(slots'[id].stack, held'[id], alive, made);
    }
  }

  /** A context made at a free address changes nothing about what is saved. */
  lemma CreateKeepsAll(slots: map<ThreadId, ClientThread>, held: map<ThreadId, seq<Held>>, alive: map<Addr, Ident>,
                       made: nat, a: Addr)
    requires AllSafe(slots, held, alive, made) && a !in alive
    ensures AllSafe(slots, held, alive[a := made + 1], made + 1)
    ensures AllExact(slots, held, alive, made) ==> AllExact(slots, held, alive[a := made + 1], made + 1)
  {
    forall id | id in slots
      ensures Safe(slots[id].stack, held[id], alive[a := made + 1], made + 1)
      ensures Exact(slots[id].stack, held[id], alive, made) ==>
                Exact(slots[id].stack, held[id], alive[a := made + 1], made + 1)
    {
      CreateKeeps(slots[id].stack, held[id], alive, made, a);
    }
  }

  /** After the sweep no saved entry is mistaken about the context destroyed. */
  lemma DestroyKeepsAll(slots: map<ThreadId, ClientThread>, held: map<ThreadId, seq<Held>>, alive: map<Addr, Ident>,
                        made: nat, a: Addr)
    requires AllSafe(slots, held, alive, made)
    ensures AllSafe(SweptAll(slots, a), held, alive - {a}, made)
    ensures AllExact(slots, held, alive, made) ==> AllExact(SweptAll(slots, a), held, alive - {a}, made)
    ensures Modes(SweptAll(slots, a)) == Modes(slots)
  {
    forall id | id in slots
      ensures Safe(Marked(slots[id].stack, a), held[id], alive - {a}, made)
      ensures Exact(slots[id].stack, held[id], alive, made) ==>
                Exact(Marked(slots[id].stack, a), held[id], alive - {a}, made)
    {
      DestroyKeeps(slots[id].stack, held[id], alive, made, a);
    }
  }

  /** What is known of one slot. */
  lemma SlotFacts(slots: map<ThreadId, ClientThread>, held: map<ThreadId, seq<Held>>, alive: map<Addr, Ident>,
                  made: nat, cap: nat, id: ThreadId)
    requires SlotsOk(slots, cap) && AllSafe(slots, held, alive, made) && id in slots
    ensures id in held && Safe(slots[id].stack, held[id], alive, made)
    ensures |slots[id].stack| <= cap && slots[id].stackCtxs == CtxsOf(slots[id].stack)
    ensures AllExact(slots, held, alive, made) ==> Exact(slots[id].stack, held[id], alive, made)
  {
  }

  /** client_threads_destroyed, the part done on the slots: the caller pops it, every other entry is marked. */
  method DestroyIn(slots: map<ThreadId, ClientThread>, ghost held: map<ThreadId, seq<Held>>, id: ThreadId, a: Addr,
                   ghost alive: map<Addr, Ident>, ghost made: nat, ghost cap: nat)
    returns (slots': map<ThreadId, ClientThread>, ghost held': map<ThreadId, seq<Held>>)
    requires SlotsOk(slots, cap) && AllSafe(slots, held, alive, made) && id in slots
    ensures slots'.Keys == slots.Keys && Modes(slots') == Modes(slots)
    ensures SlotsOk(slots', cap) && AllSafe(slots', held', alive - {a}, made)
    ensures AllExact(slots, held, alive, made) ==>
      && AllExact(slots', held', alive - {a}, made)
      && id in held && held' == held[id := AfterDestroy(alive, held[id], a)]
  {
    hide CtxsOf, Safe, Exact, Names, AllSafe, AllExact, SlotsOk;
    SlotFacts(slots, held, alive, made, cap, id);
    var t := slots[id];
    ghost var h := held[id];
    SameTop(t.stack, h, alive, made);
    DropKeeps(t.stack, h, alive, made);
    if t.stack != [] && !Last(t.stack).gone && Last(t.stack).ctx == a {
      t, h := WithStack(t, Dropped(t.stack)), Dropped(h);
    }
    OneSlot(slots, held, alive, made, cap, id, t, h);
    slots', held' := slots[id := t], held[id := h];
    DestroyKeepsAll(slots', held', alive, made, a);
    slots' := Sweep(slots', a, cap);
  }

  class Threads {
    const driver: Driver
    // RGPU_MAX_CONTEXT_STACK, never 0
    const cap: nat
    // RGPU_MAX_CLIENT_THREADS
    const maxLive: nat
    // Every slot the session keeps, live or recently retired.
    var slots: map<ThreadId, ClientThread>
    // Whose slots are live, and whose are retired, the oldest first.
    var live: set<ThreadId>
    var retired: seq<ThreadId>
    var applied: Addr
    var appliedMode: Mode
    // Which contexts the saved entries stand for.
    ghost var held: map<ThreadId, seq<Held>>

    /** What holds whatever the driver's current context is. */
    ghost predicate Loose()
      reads this, driver
    {
      && driver.Valid() && cap >= 1 && appliedMode == driver.mode
      && (driver.obliging ==> |driver.stack| <= 1)
      && SlotsOk(slots, cap) && AllSafe(slots, held, driver.alive, driver.made)
    }

    /** `applied` is never a belief the driver contradicts, and the driver's stack is one deep. */
    ghost predicate Valid()
      reads this, driver
    {
      Loose() && applied == Current(driver.stack)
    }

    /** Every saved entry says of its context exactly whether it still exists. */
    ghost predicate Faithful()
      reads this, driver
    {
      driver.obliging && AllExact(slots, held, driver.alive, driver.made)
    }

    function SeatsNow(): Seats
      reads this
    {
      Seats(live, retired)
    }

    /** The slots are those of the threads that sit. */
    ghost predicate Kept()
      reads this
    {
      Distinct(SeatsNow()) && |live| <= maxLive && forall id :: id in slots <==> Seated(SeatsNow(), id)
    }

    ghost function View(): World
      reads this, driver
    {
      World(driver.alive, driver.made, held, Modes(slots))
    }

    constructor (driver: Driver, cap: nat, maxLive: nat)
      requires driver.Valid() && driver.stack == [] && driver.mode == Global && cap >= 1
      ensures Valid() && Kept() && SeatsNow() == NOBODY && (driver.obliging ==> Faithful())
      ensures this.driver == driver && this.cap == cap && this.maxLive == maxLive
    {
      this.driver, this.cap, this.maxLive := driver, cap, maxLive;
      live, retired := {}, [];
      slots, applied, appliedMode, held := map[], 0, Global, map[];
    }

    /** clear: leaves the serving thread with no context, in a bounded number of pops. */
    method Clear() returns (r: Result)
      requires Valid()
      modifies this`applied, driver`stack
      ensures Valid()
      ensures r == Success <==> applied == 0
      ensures driver.obliging ==> r == Success
    {
      var i := 0;
      r := Success;
      while applied != 0 && i < 8
        invariant Valid() && i <= 8
        invariant driver.obliging && i > 0 ==> applied == 0
        decreases 8 - i
      {
        r := driver.SetCurrent(0);
        applied := Current(driver.stack);
        i := i + 1;
        if r != Success {
          break;
        }
      }
      if applied == 0 {
        return Success;
      }
      r := if r != Success then r else InvalidContext;
    }

    /** show_context. */
    method ShowContext(id: ThreadId) returns (r: Result)
      requires Valid() && id in slots
      modifies this`slots, this`applied, driver`stack
      ensures Valid() && slots.Keys == old(slots).Keys && Modes(slots) == old(Modes(slots))
      ensures r == Success ==> applied == Shown(slots[id].stack)
      ensures driver.obliging ==> r == Success && slots == old(slots)
      ensures forall k :: k in slots && k != id ==> slots[k] == old(slots)[k]
    {
      hide CtxsOf, Safe, Exact, Names, AliveOk;
      var t := slots[id];
      if t.stack != [] && !Last(t.stack).gone {
        var top := Last(t.stack).ctx;
        SameTop(t.stack, held[id], driver.alive, driver.made);
        if top == applied {
          return Success;
        }
        r := driver.SetCurrent(top);
        if r == Success {
          applied := top;
          return;
        }
        var marked := Replaced(t.stack, Saved(top, true));
        MarkTop(t, held[id], driver.alive, driver.made);
        OneSlot(slots, held, driver.alive, driver.made, cap, id, t.(stack := marked), held[id]);
        assert held[id := held[id]] == held;
        slots := slots[id := t.(stack := marked)];
        applied := Current(driver.stack);
        assert Modes(slots) == old(Modes(slots));
      }
      r := Clear();
    }

    /** show_capture_mode. */
    method ShowMode(id: ThreadId) returns (r: Result)
      requires Valid() && id in slots
      modifies this`appliedMode, driver`mode
      ensures Valid()
      ensures r == Success ==> appliedMode == slots[id].mode
      ensures driver.obliging ==> r == Success
    {
      if slots[id].mode == appliedMode {
        return Success;
      }
      var was;
      r, was := driver.Exchange(slots[id].mode);
      if r == Success {
        appliedMode := slots[id].mode;
      }
    }

    /** client_thread_show, and the test before it that skips it when there is nothing to do. */
    method Show(id: ThreadId) returns (r: Result)
      requires Valid() && id in slots
      modifies this`slots, this`applied, this`appliedMode, driver`stack, driver`mode
      ensures Valid() && slots.Keys == old(slots).Keys && Modes(slots) == old(Modes(slots))
      ensures r == Success ==> applied == Shown(slots[id].stack) && appliedMode == slots[id].mode
      ensures driver.obliging ==> r == Success && slots == old(slots)
    {
      if slots[id].mode == appliedMode && Shown(slots[id].stack) == applied {
        return Success;
      }
      r := ShowContext(id);
      if r == Success {
        r := ShowMode(id);
      }
    }

    /** The issuing thread's stack becomes `stack`, which stands for `h`. */
    ghost predicate Becomes(id: ThreadId, stack: seq<Saved>, h: seq<Held>)
      reads this, driver
    {
      && id in slots && |stack| <= cap && Safe(stack, h, driver.alive, driver.made)
    }

    method SetStack(id: ThreadId, stack: seq<Saved>, ghost h: seq<Held>)
      requires Loose() && Becomes(id, stack, h)
      modifies this`slots, this`held
      ensures Loose() && slots == old(slots)[id := WithStack(old(slots)[id], stack)] && held == old(held)[id := h]
      ensures Modes(slots) == old(Modes(slots))
      ensures old(Faithful()) ==> (Faithful() <==> Exact(stack, h, driver.alive, driver.made))
    {
      OneSlot(slots, held, driver.alive, driver.made, cap, id, WithStack(slots[id], stack), h);
      slots := slots[id := WithStack(slots[id], stack)];
      held := held[id := h];
      assert Modes(slots) == old(Modes(slots));
    }

    /** w_cuCtxSetCurrent. */
    method SetCurrent(id: ThreadId, a: Addr) returns (r: Result)
      requires Valid() && id in slots && applied == Shown(slots[id].stack)
      modifies this`slots, this`held, this`applied, this`appliedMode, driver`stack, driver`mode
      ensures Valid() && slots.Keys == old(slots).Keys
      ensures old(Faithful()) ==>
        && (View(), Done(r)) == Step(old(View()), id, Call.SetCurrent(a), cap)
        && (Faithful() <==> !SelectsDead(old(View()), id, Call.SetCurrent(a), cap))
      ensures driver.obliging ==>
        Carried(old(slots), driver.alive, driver.made, cap, id, Call.SetCurrent(a), slots, driver.alive, driver.made,
                Done(r))
    {
      hide CtxsOf, Safe, Exact, Names, AliveOk;
      var stack := slots[id].stack;
      SameTop(stack, held[id], driver.alive, driver.made);
      DropKeeps(stack, held[id], driver.alive, driver.made);
      if a == 0 {
        if stack == [] {
          assert held[id := Dropped(held[id])] == held;
          return Success;
        }
        SetStack(id, Dropped(stack), Dropped(held[id]));
        r := Show(id);
        return;
      }
      r := driver.SetCurrent(a);
      if r != Success {
        applied := Current(driver.stack);
        return;
      }
      AppendKeeps(Dropped(stack), Dropped(held[id]), driver.alive, driver.made, a);
      SetStack(id, Replaced(stack, Saved(a, false)), Replaced(held[id], Bind(driver.alive, a)));
      applied := a;
    }

    /** w_cuCtxPushCurrent_v2: the driver's top is replaced, so its own stack stays one deep. */
    method PushCurrent(id: ThreadId, a: Addr) returns (r: Result)
      requires Valid() && id in slots && applied == Shown(slots[id].stack)
      modifies this`slots, this`held, this`applied, driver`stack
      ensures Valid() && slots.Keys == old(slots).Keys
      ensures old(Faithful()) ==>
        && (View(), Done(r)) == Step(old(View()), id, Call.Push(a), cap)
        && (Faithful() <==> !SelectsDead(old(View()), id, Call.Push(a), cap))
    {
      hide CtxsOf, Safe, Exact, Names, AliveOk;
      if a == 0 {
        return InvalidContext;
      }
      var stack := slots[id].stack;
      SameTop(stack, held[id], driver.alive, driver.made);
      if |stack| >= cap {
        return InvalidValue;
      }
      r := driver.SetCurrent(a);
      if r != Success {
        applied := Current(driver.stack);
        return;
      }
      AppendKeeps(stack, held[id], driver.alive, driver.made, a);
      SetStack(id, stack + [Saved(a, false)], held[id] + [Bind(driver.alive, a)]);
      applied := a;
    }

    /** w_cuCtxPopCurrent_v2: the popped handle is returned even if its context is destroyed. */
    method PopCurrent(id: ThreadId) returns (r: Result, popped: Addr)
      requires Valid() && id in slots && applied == Shown(slots[id].stack)
      modifies this`slots, this`held, this`applied, this`appliedMode, driver`stack, driver`mode
      ensures Valid() && slots.Keys == old(slots).Keys
      ensures old(Faithful()) ==>
        && (View(), if r == Success then Named(popped) else Done(r)) == Step(old(View()), id, Call.Pop, cap)
        && Faithful()
    {
      hide CtxsOf, Safe, Exact, Names, AliveOk;
      var stack := slots[id].stack;
      SameTop(stack, held[id], driver.alive, driver.made);
      if stack == [] {
        r, popped := driver.PopCurrent();
        applied := Current(driver.stack);
        return;
      }
      popped := Last(stack).ctx;
      DropKeeps(stack, held[id], driver.alive, driver.made);
      SetStack(id, Dropped(stack), Dropped(held[id]));
      r := Show(id);
    }

    /** w_cuCtxGetCurrent: a destroyed context is still named. */
    method GetCurrent(id: ThreadId) returns (a: Addr)
      requires Valid() && id in slots
      ensures (View(), Named(a)) == Step(View(), id, Call.GetCurrent, cap)
    {
      var stack := slots[id].stack;
      assert Safe(stack, held[id], driver.alive, driver.made);
      a := if stack == [] then 0 else Last(stack).ctx;
    }

    /** w_cuCtxCreate_v2 and client_threads_created: the new context goes onto the caller's stack. */
    method CreateContext(id: ThreadId, at: Addr) returns (r: Result)
      requires Valid() && id in slots && applied == Shown(slots[id].stack)
      modifies this`slots, this`held, this`applied, driver`stack, driver`alive, driver`made
      ensures Valid() && slots.Keys == old(slots).Keys
      ensures old(Faithful()) ==>
        && (View(), if r == Success then Named(at) else Done(r)) == Step(old(View()), id, Call.Create(at), cap)
        && Faithful()
      ensures Carried(old(slots), old(driver.alive), old(driver.made), cap, id, Call.Create(at), slots, driver.alive,
                      driver.made, if r == Success then Named(at) else Done(r))
    {
      hide CtxsOf, Safe, Exact, Names, AliveOk, AllSafe, AllExact, SlotsOk, Modes;
      SlotFacts(slots, held, driver.alive, driver.made, cap, id);
      var stack := slots[id].stack;
      SameTop(stack, held[id], driver.alive, driver.made);
      if |stack| >= cap {
        return InvalidValue;
      }
      ghost var alive0, made0 := driver.alive, driver.made;
      r := driver.Create(at);
      if r != Success {
        return;
      }
      CreateKeepsAll(slots, held, alive0, made0, at);
      Created(id, at);
    }

    /** client_threads_created: the context is on top of the thread's own stack, and alone on the driver's. */
    method Created(id: ThreadId, at: Addr)
      requires driver.Valid() && cap >= 1 && appliedMode == driver.mode && id in slots && at in driver.alive
      requires SlotsOk(slots, cap) && AllSafe(slots, held, driver.alive, driver.made) && |slots[id].stack| < cap
      requires driver.stack != [] && driver.stack[|driver.stack| - 1] == at
      requires applied == Current(driver.stack[..|driver.stack| - 1])
      requires driver.obliging ==> |driver.stack| <= 2
      modifies this`slots, this`held, this`applied, driver`stack
      ensures Valid() && slots == old(slots)[id := WithStack(old(slots)[id], old(slots)[id].stack + [Saved(at, false)])]
      ensures id in old(held) && held == old(held)[id := old(held)[id] + [Bind(driver.alive, at)]]
      ensures Modes(slots) == old(Modes(slots))
      ensures old(Faithful()) ==> Faithful()
    {
      hide CtxsOf, Safe, Exact, Names, AliveOk, AllSafe, AllExact, SlotsOk, Modes;
      SlotFacts(slots, held, driver.alive, driver.made, cap, id);
      var stack := slots[id].stack;
      if applied != 0 {
        var popped := driver.SetCurrent(0);
        var replaced := driver.SetCurrent(at);
      }
      AppendKeeps(stack, held[id], driver.alive, driver.made, at);
      SetStack(id, stack + [Saved(at, false)], held[id] + [Bind(driver.alive, at)]);
      applied := at;
      if applied != Current(driver.stack) {
        applied := Current(driver.stack);
      }
    }

    /** w_cuCtxDestroy_v2, w_cuCtxDetach and client_threads_destroyed. */
    method DestroyContext(id: ThreadId, a: Addr) returns (r: Result)
      requires Valid() && id in slots && applied == Shown(slots[id].stack)
      modifies this`slots, this`held, this`applied, this`appliedMode
      modifies driver`stack, driver`mode, driver`alive
      ensures Valid() && slots.Keys == old(slots).Keys
      ensures old(Faithful()) ==>
        && (View(), Done(r)) == Step(old(View()), id, Call.Destroy(a), cap)
        && Faithful()
    {
      hide CtxsOf, Safe, Exact, Names, AliveOk, AllSafe, AllExact, SlotsOk, Modes, AfterDestroy;
      ghost var alive0 := driver.alive;
      r := driver.Destroy(a);
      if r != Success {
        assert alive0 - {a} == alive0;
        return;
      }
      slots, held := DestroyIn(slots, held, id, a, alive0, driver.made, cap);
      if applied == a {
        applied := Current(driver.stack);
        if applied == a {
          var cleared := Clear();
        }
      }
      var shown := Show(id);
    }

    /** client_threads_exchange_capture_mode. */
    method ExchangeMode(id: ThreadId, m: Mode) returns (r: Result, was: Mode)
      requires Valid() && id in slots && appliedMode == slots[id].mode
      modifies this`slots, this`appliedMode, driver`mode
      ensures Valid() && slots.Keys == old(slots).Keys
      ensures old(Faithful()) ==>
        && r == Success && (View(), WasIn(was)) == Step(old(View()), id, Call.ExchangeMode(m), cap)
        && Faithful()
    {
      hide CtxsOf, Safe, Exact, Names, AliveOk, AllSafe, AllExact, SlotsOk;
      SlotFacts(slots, held, driver.alive, driver.made, cap, id);
      r, was := driver.Exchange(m);
      if r == Success {
        OneSlot(slots, held, driver.alive, driver.made, cap, id, slots[id].(mode := m), held[id]);
        assert held[id := held[id]] == held;
        slots := slots[id := slots[id].(mode := m)];
        appliedMode := m;
      }
    }

    /**
      A call that needs a context, made by the driver on the serving thread. If the thread's
      current context was alive when it selected it, the call runs in that context or in none.
     */
    method RunInContext(id: ThreadId) returns (ident: Ident)
      requires Valid() && id in slots && applied == Shown(slots[id].stack)
      ensures ident == Bind(driver.alive, Shown(slots[id].stack)).ident
      ensures id in held && (ident != 0 ==> held[id] != [] && Last(held[id]).ident in {0, ident})
      ensures Faithful() ==>
        ident == if held[id] != [] && Names(driver.alive, Last(held[id])) then Last(held[id]).ident else 0
    {
      hide CtxsOf, Safe, Exact, AllSafe, AllExact, SlotsOk;
      SlotFacts(slots, held, driver.alive, driver.made, cap, id);
      SameTop(slots[id].stack, held[id], driver.alive, driver.made);
      ident := driver.Work();
    }

    /**
      client_thread_after: what the call left current is recorded, and a failure for want of a
      context is the failure CUDA gives while the thread's own context is a destroyed one.
     */
    method After(id: ThreadId, result: Result, aboutArgument: bool) returns (r: Result)
      requires Loose() && id in slots
      modifies this`slots, this`held, this`applied
      ensures Valid() && slots.Keys == old(slots).Keys
      ensures old(applied) == Current(driver.stack) ==> slots == old(slots) && held == old(held)
      ensures old(applied) != Current(driver.stack) ==>
        held == old(held)[id := if Current(driver.stack) == 0 then Dropped(old(held)[id])
                                else Replaced(old(held)[id], Bind(driver.alive, Current(driver.stack)))]
      ensures r == if result == InvalidContext && slots[id].stack != [] && Last(slots[id].stack).gone
                      && !aboutArgument then ContextIsDestroyed else result
    {
      hide CtxsOf, Safe, Exact, Names, AllSafe, AllExact, SlotsOk;
      SlotFacts(slots, held, driver.alive, driver.made, cap, id);
      var stack, now := slots[id].stack, Current(driver.stack);
      SameTop(stack, held[id], driver.alive, driver.made);
      DropKeeps(stack, held[id], driver.alive, driver.made);
      if now != applied {
        if now == 0 {
          SetStack(id, Dropped(stack), Dropped(held[id]));
        } else {
          AppendKeeps(Dropped(stack), Dropped(held[id]), driver.alive, driver.made, now);
          SetStack(id, Replaced(stack, Saved(now, false)), Replaced(held[id], Bind(driver.alive, now)));
        }
        applied := now;
      }
      stack := slots[id].stack;
      r := if result == InvalidContext && stack != [] && Last(stack).gone && !aboutArgument
           then ContextIsDestroyed else result;
    }

    /** thread_slot and admit_thread: the slot kept for the thread, or an empty one, unless the table is full. */
    method Admit(id: ThreadId) returns (ok: bool)
      requires Valid() && Kept() && SeatsOk(SeatsNow(), maxLive) && id != 0
      modifies this`slots, this`held, this`live, this`retired
      ensures Valid() && Kept() && SeatsOk(SeatsNow(), maxLive) && ok == CanSit(old(SeatsNow()), id, maxLive)
      ensures SeatsNow() == if ok then Admits(old(SeatsNow()), id) else old(SeatsNow())
      ensures slots == if ok then Admitted(old(slots), id) else old(slots)
      ensures ok ==> id in live
      ensures old(Faithful()) ==> Faithful() && View() == if ok then Known(old(View()), id) else old(View())
    {
      hide AllExact, SlotsOk, Distinct;
      if id in live {
        assert Seated(SeatsNow(), id);
        return true;
      }
      if |live| >= maxLive {
        return false;
      }
      AdmitKeeps(SeatsNow(), id, maxLive);
      var i := 0;
      while i < |retired| && retired[i] != id
        invariant i <= |retired| && forall j :: 0 <= j < i ==> retired[j] != id
      {
        i := i + 1;
      }
      if i < |retired| {
        WithoutOne(retired, i);
        retired := retired[..i] + retired[i + 1..];
      } else {
        WithoutNone(retired, id);
      }
      live := live + {id};
      NewSlot(id);
      return true;
    }

    /** An empty slot for a thread without one. */
    method NewSlot(id: ThreadId)
      requires Valid()
      modifies this`slots, this`held
      ensures Valid() && slots == Admitted(old(slots), id)
      ensures old(Faithful()) ==> Faithful() && View() == Known(old(View()), id)
    {
      hide AllExact, SlotsOk;
      if id !in slots {
        OneSlot(slots, held, driver.alive, driver.made, cap, id, EMPTY_SLOT, []);
        slots := slots[id := EMPTY_SLOT];
        held := held[id := []];
      }
    }

    /** trim_retired: the oldest slot past the bound goes, stack and all. */
    method Trim()
      requires Valid() && Kept() && |retired| <= RETIRED_SLOTS + 1
      modifies this`slots, this`held, this`retired
      ensures Valid() && Kept() && SeatsOk(SeatsNow(), maxLive) && SeatsNow() == Trims(old(SeatsNow())).0
      ensures old(Faithful()) ==>
        Faithful() && (View(), []) == Run(old(View()), Forgetting(Trims(old(SeatsNow())).1), cap)
    {
      hide Distinct, AllSafe, AllExact, SlotsOk;
      TrimKeeps(SeatsNow(), maxLive);
      if |retired| > RETIRED_SLOTS {
        var id := retired[0];
        RunOne(View(), Forgotten(id), cap);
        assert Forgetting([id]) == [Forgotten(id)];
        SlotGone(slots, held, driver.alive, driver.made, cap, id);
        slots, held, retired := slots - {id}, held - {id}, retired[1..];
      }
    }

    /** retire_thread. */
    method Retire(id: ThreadId)
      requires Valid() && Kept() && SeatsOk(SeatsNow(), maxLive)
      modifies this`slots, this`held, this`live, this`retired
      ensures Valid() && Kept() && SeatsOk(SeatsNow(), maxLive) && SeatsNow() == Retires(old(SeatsNow()), id).0
      ensures old(Faithful()) ==>
        Faithful() && (View(), []) == Run(old(View()), Forgetting(Retires(old(SeatsNow()), id).1), cap)
    {
      hide AllSafe, AllExact, SlotsOk, Run;
      RunNone(View(), cap);
      if id in live {
        live, retired := live - {id}, retired + [id];
        Trim();
      }
    }

    /** handle_thread_gone, once its ids are read. */
    method RetireAll(ids: seq<ThreadId>)
      requires Valid() && Kept() && SeatsOk(SeatsNow(), maxLive)
      modifies this`slots, this`held, this`live, this`retired
      ensures Valid() && Kept() && SeatsOk(SeatsNow(), maxLive) && SeatsNow() == RetiresAll(old(SeatsNow()), ids).0
      ensures old(Faithful()) ==>
        Faithful() && (View(), []) == Run(old(View()), Forgetting(RetiresAll(old(SeatsNow()), ids).1), cap)
    {
      hide AllSafe, AllExact, SlotsOk, Distinct, Run, Retires, Forgetting;
      RunNone(View(), cap);
      for i := 0 to |ids|
        invariant Valid() && Kept() && SeatsOk(SeatsNow(), maxLive)
        invariant SeatsNow() == RetiresAll(old(SeatsNow()), ids[..i]).0
        invariant old(Faithful()) ==>
          Faithful() && (View(), []) == Run(old(View()), Forgetting(RetiresAll(old(SeatsNow()), ids[..i]).1), cap)
      {
        ghost var before, after := RetiresAll(old(SeatsNow()), ids[..i]), Retires(SeatsNow(), ids[i]);
        assert ids[..i + 1][..i] == ids[..i];
        ForgettingMore(before.1, after.1);
        RunAppend(old(View()), Forgetting(before.1), Forgetting(after.1), cap);
        Retire(ids[i]);
      }
      assert ids[..|ids|] == ids;
    }

    /** deferred_home for a request that was refused and has no reply: the thread is given a slot, set aside. */
    method Park(id: ThreadId)
      requires Valid() && Kept() && SeatsOk(SeatsNow(), maxLive) && id != 0
      modifies this`slots, this`held, this`retired
      ensures Valid() && Kept() && SeatsOk(SeatsNow(), maxLive) && SeatsNow() == Parks(old(SeatsNow()), id).0
      ensures old(Faithful()) ==>
        Faithful() && (View(), []) == Run(old(View()), [Seat(id)] + Forgetting(Parks(old(SeatsNow()), id).1), cap)
    {
      hide AllExact, SlotsOk, Run, Safe;
      ghost var gone := Forgetting(Parks(SeatsNow(), id).1);
      RunOne(View(), Seat(id), cap);
      RunAppend(View(), [Seat(id)], gone, cap);
      RunNone(Known(View(), id), cap);
      if id in live || id in retired {
        return;
      }
      NewSlot(id);
      retired := retired + [id];
      Trim();
    }

    /** The call itself, once the serving thread shows its thread's state. */
    method Dispatch(id: ThreadId, call: Call) returns (answer: Answer)
      requires Valid() && id in slots && applied == Shown(slots[id].stack) && appliedMode == slots[id].mode
      modifies this`slots, this`held, this`applied, this`appliedMode, driver
      ensures Valid() && slots.Keys == old(slots).Keys
      ensures old(Faithful()) ==>
        && (View(), answer) == Step(old(View()), id, call, cap)
        && (Faithful() <==> !SelectsDead(old(View()), id, call, cap))
      ensures driver.obliging ==>
        Carried(old(slots), old(driver.alive), old(driver.made), cap, id, call,
                slots, driver.alive, driver.made, answer)
    {
      hide CtxsOf, Safe, Exact, Names, AliveOk, AllSafe, AllExact, SlotsOk, Modes, Step;
      var r;
      match call {
        case SetCurrent(a) =>
          r := SetCurrent(id, a);
          answer := Done(r);
        case Push(a) =>
          r := PushCurrent(id, a);
          answer := Done(r);
        case Pop =>
          var a;
          r, a := PopCurrent(id);
          answer := if r == Success then Named(a) else Done(r);
        case GetCurrent =>
          var a := GetCurrent(id);
          answer := Named(a);
        case Create(at) =>
          r := CreateContext(id, at);
          answer := if r == Success then Named(at) else Done(r);
        case Destroy(a) =>
          r := DestroyContext(id, a);
          answer := Done(r);
        case ExchangeMode(m) =>
          var was;
          r, was := ExchangeMode(id, m);
          answer := if r == Success then WasIn(was) else Done(r);
        case Work =>
          answer := Work(id);
      }
    }

    method Work(id: ThreadId) returns (answer: Answer)
      requires Valid() && id in slots && applied == Shown(slots[id].stack)
      modifies this`slots, this`held, this`applied
      ensures Valid() && slots == old(slots)
      ensures old(Faithful()) ==> Faithful() && (View(), answer) == Step(old(View()), id, Call.Work, cap)
      ensures Carried(old(slots), driver.alive, driver.made, cap, id, Call.Work,
                      slots, driver.alive, driver.made, answer)
    {
      hide CtxsOf, Safe, Exact, AllSafe, AllExact, SlotsOk, Modes;
      SlotFacts(slots, held, driver.alive, driver.made, cap, id);
      SameTop(slots[id].stack, held[id], driver.alive, driver.made);
      var ident := RunInContext(id);
      if ident != 0 {
        return RanIn(ident);
      }
      var r := After(id, InvalidContext, false);
      answer := Done(r);
    }

    /** One request that was admitted: the thread's state is shown, and the call is carried out on its stack. */
    method Serve(id: ThreadId, call: Call) returns (answer: Answer)
      requires Valid() && id in slots
      modifies this`slots, this`held, this`applied, this`appliedMode, driver
      ensures Valid() && slots.Keys == old(slots).Keys
      ensures old(Faithful()) ==>
        && (View(), answer) == Step(old(View()), id, call, cap)
        && (Faithful() <==> !SelectsDead(old(View()), id, call, cap))
      ensures driver.obliging ==>
        Carried(old(slots), old(driver.alive), old(driver.made), cap, id, call,
                slots, driver.alive, driver.made, answer)
    {
      hide Safe, Exact, Names, AliveOk, AllSafe, AllExact, SlotsOk, Step, SelectsDead, Carried;
      var r := Show(id);
      if r != Success {
        return Done(r);
      }
      answer := Dispatch(id, call);
    }

    /**
      A call, from finding its thread's slot: refused if it names no thread or the table is full,
      and otherwise answered as if its thread had a stack of its own.
     */
    method ServeCall(id: ThreadId, call: Call, noReply: bool) returns (answer: Answer)
      requires Valid() && Kept() && SeatsOk(SeatsNow(), maxLive)
      modifies this, driver
      ensures Valid() && Kept() && SeatsOk(SeatsNow(), maxLive)
      ensures SeatsNow() == Turn(old(SeatsNow()), Ask(id, call, noReply), maxLive).0
      ensures !CanSit(old(SeatsNow()), id, maxLive) ==> answer == Done(InvalidValue)
      ensures old(Faithful()) ==>
        var events := Turn(old(SeatsNow()), Ask(id, call, noReply), maxLive).1;
        && (View(), [answer]) == Run(old(View()), events, cap)
        && (Faithful() <==> SelectsOnlyLive(old(View()), events, cap))
      ensures driver.obliging && CanSit(old(SeatsNow()), id, maxLive) ==>
        Carried(Admitted(old(slots), id), old(driver.alive), old(driver.made), cap, id, call,
                slots, driver.alive, driver.made, answer)
    {
      hide AllSafe, AllExact, SlotsOk, Distinct, Run, SelectsOnlyLive, Step, SelectsDead, Carried, Admits;
      RunOne(View(), Request(id, call), cap);
      if id != 0 {
        var ok := Admit(id);
        if ok {
          assert Seated(SeatsNow(), id);
          answer := Serve(id, call);
          return;
        }
      }
      answer := Refuse(id, noReply);
    }

    /** Answered with CUDA_ERROR_INVALID_VALUE, and nothing else done but to keep a place for the failure. */
    method Refuse(id: ThreadId, noReply: bool) returns (answer: Answer)
      requires Valid() && Kept() && SeatsOk(SeatsNow(), maxLive)
      modifies this`slots, this`held, this`retired
      ensures Valid() && Kept() && SeatsOk(SeatsNow(), maxLive) && answer == Done(InvalidValue)
      ensures SeatsNow() == Refusal(old(SeatsNow()), id, noReply).0
      ensures old(Faithful()) ==>
        var events := Refusal(old(SeatsNow()), id, noReply).1;
        Faithful() && (View(), [answer]) == Run(old(View()), events, cap) && SelectsOnlyLive(old(View()), events, cap)
    {
      hide AllSafe, AllExact, SlotsOk, Distinct, Run, SelectsOnlyLive, Forgetting;
      answer := Done(InvalidValue);
      RunOne(View(), Replied(InvalidValue), cap);
      if id != 0 && noReply {
        ghost var w, gone := View(), [Seat(id)] + Forgetting(Parks(SeatsNow(), id).1);
        Park(id);
        RunAppend(w, gone, [Replied(InvalidValue)], cap);
        RunOne(Run(w, gone, cap).0, Replied(InvalidValue), cap);
        ForgettingOnly(Parks(old(SeatsNow()), id).1);
        SelectsNone(w, gone, cap);
      }
    }

    /** A notice that threads are gone. */
    method ServeNotice(id: ThreadId, words: seq<nat>, noReply: bool) returns (answer: Answer)
      requires Valid() && Kept() && SeatsOk(SeatsNow(), maxLive)
      modifies this`slots, this`held, this`live, this`retired
      ensures Valid() && Kept() && SeatsOk(SeatsNow(), maxLive)
      ensures SeatsNow() == Turn(old(SeatsNow()), Notice(id, words, noReply), maxLive).0
      ensures answer == Done(if id != 0 && WholeNotice(words) then Success else InvalidValue)
      ensures old(Faithful()) ==>
        var events := Turn(old(SeatsNow()), Notice(id, words, noReply), maxLive).1;
        Faithful() && (View(), [answer]) == Run(old(View()), events, cap) && SelectsOnlyLive(old(View()), events, cap)
    {
      hide AllSafe, AllExact, SlotsOk, Distinct, Run, SelectsOnlyLive, Forgetting, RetiresAll, Refusal;
      if id == 0 || !WholeNotice(words) {
        answer := Refuse(id, noReply);
        return;
      }
      ghost var w, gone := View(), Forgetting(RetiresAll(SeatsNow(), words[1..words[0] + 1]).1);
      RetireAll(words[1..words[0] + 1]);
      answer := Done(Success);
      RunAppend(w, gone, [Replied(Success)], cap);
      RunOne(Run(w, gone, cap).0, Replied(Success), cap);
      ForgettingOnly(RetiresAll(old(SeatsNow()), words[1..words[0] + 1]).1);
      SelectsNone(w, gone, cap);
    }

    /** A context made elsewhere takes a free address, so it changes nothing that is saved. */
    method Appear(at: Addr)
      requires Valid()
      modifies driver`alive, driver`made
      ensures Valid()
      ensures old(Faithful()) ==> Faithful() && View() == Appears(old(View()), at)
    {
      hide Safe, Exact, Names, AllSafe, AllExact, SlotsOk;
      if at != 0 && at !in driver.alive {
        CreateKeepsAll(slots, held, driver.alive, driver.made, at);
      }
      driver.MadeElsewhere(at);
    }

    /** One input, whatever it is. */
    method ServeInput(input: Input) returns (answers: seq<Answer>)
      requires Valid() && Kept() && SeatsOk(SeatsNow(), maxLive)
      modifies this, driver
      ensures Valid() && Kept() && SeatsOk(SeatsNow(), maxLive)
      ensures SeatsNow() == Turn(old(SeatsNow()), input, maxLive).0
      ensures old(Faithful()) ==>
        var events := Turn(old(SeatsNow()), input, maxLive).1;
        && (View(), answers) == Run(old(View()), events, cap)
        && (Faithful() <==> SelectsOnlyLive(old(View()), events, cap))
    {
      hide AllSafe, AllExact, SlotsOk, Distinct, Run, SelectsOnlyLive, Forgetting, RetiresAll, Refusal, Admits, CanSit;
      match input
      case Ask(id, call, noReply) =>
        var a := ServeCall(id, call, noReply);
        answers := [a];
      case Notice(id, words, noReply) =>
        var a := ServeNotice(id, words, noReply);
        answers := [a];
      case Appear(at) =>
        RunOne(View(), Elsewhere(at), cap);
        Appear(at);
        answers := [];
    }

    /**
      Any interleaving of calls and notices of any number of client threads, refusals included,
      with contexts made elsewhere at any moment: the answers are those of each thread having a
      stack of its own, for as long as its slot is kept.
     */
    method ServeAll(inputs: seq<Input>) returns (answers: seq<Answer>)
      requires Valid() && Kept() && SeatsOk(SeatsNow(), maxLive)
      modifies this, driver
      ensures Valid() && Kept() && SeatsOk(SeatsNow(), maxLive)
      ensures SeatsNow() == Turns(old(SeatsNow()), inputs, maxLive).0
      ensures old(Faithful()) ==>
        var events := Turns(old(SeatsNow()), inputs, maxLive).1;
        SelectsOnlyLive(old(View()), events, cap) ==>
          Faithful() && (View(), answers) == Run(old(View()), events, cap)
    {
      hide AllSafe, AllExact, SlotsOk, Distinct, Run, SelectsOnlyLive, Turn;
      answers := [];
      ghost var w, s := View(), SeatsNow();
      RunNone(w, cap);
      for i := 0 to |inputs|
        invariant Valid() && Kept() && SeatsOk(SeatsNow(), maxLive)
        invariant SeatsNow() == Turns(s, inputs[..i], maxLive).0
        invariant old(Faithful()) && SelectsOnlyLive(w, Turns(s, inputs[..i], maxLive).1, cap) ==>
          Faithful() && (View(), answers) == Run(w, Turns(s, inputs[..i], maxLive).1, cap)
      {
        TurnsNext(s, inputs, i, maxLive);
        RunAppend(w, Turns(s, inputs[..i], maxLive).1, Turn(SeatsNow(), inputs[i], maxLive).1, cap);
        var a := ServeInput(inputs[i]);
        answers := answers + a;
      }
      assert inputs[..|inputs|] == inputs;
    }
  }

  lemma RunNone(w: World, cap: nat)
    ensures Run(w, [], cap) == (w, []) && SelectsOnlyLive(w, [], cap) && Forgetting([]) == []
  {
  }

  lemma ForgettingOnly(ids: seq<ThreadId>)
    ensures forall i :: 0 <= i < |Forgetting(ids)| ==> Forgetting(ids)[i].Forgotten?
  {
  }

  lemma ForgettingMore(a: seq<ThreadId>, b: seq<ThreadId>)
    ensures Forgetting(a + b) == Forgetting(a) + Forgetting(b)
  {
  }

  /** A run without requests selects nothing. */
  lemma {:induction false} SelectsNone(w: World, events: seq<Event>, cap: nat)
    requires forall i :: 0 <= i < |events| ==> !events[i].Request?
    ensures SelectsOnlyLive(w, events, cap)
  {
    if events != [] {
      SelectsNone(w, events[..|events| - 1], cap);
    }
  }

  /** Forgetting one thread leaves the others as they were. */
  lemma SlotGone(slots: map<ThreadId, ClientThread>, held: map<ThreadId, seq<Held>>, alive: map<Addr, Ident>,
                 made: nat, cap: nat, id: ThreadId)
    requires SlotsOk(slots, cap) && AllSafe(slots, held, alive, made)
    ensures SlotsOk(slots - {id}, cap) && AllSafe(slots - {id}, held - {id}, alive, made)
    ensures AllExact(slots, held, alive, made) ==> AllExact(slots - {id}, held - {id}, alive, made)
    ensures Modes(slots - {id}) == Modes(slots) - {id}
  {
    hide Safe, Exact, CtxsOf;
  }

  /** A handle that is dead when selected, a context then made at its address, and work. */
  function DeadHandleRun(a: Addr, one: ThreadId, other: ThreadId): seq<Event> {
    [Request(one, Call.SetCurrent(a)), Request(other, Call.Create(a)), Request(one, Call.Work)]
  }

  /** CUDA answers that run with a destroyed context. */
  lemma DeadHandleAnswers(w: World, a: Addr, one: ThreadId, other: ThreadId, cap: nat)
    requires w.stacks == map[] && w.modes == map[] && AliveOk(w.alive, w.made)
    requires a != 0 && a !in w.alive && one != other && cap >= 1
    ensures Run(w, DeadHandleRun(a, one, other), cap).1 == [Done(Success), Named(a), Done(ContextIsDestroyed)]
  {
    var w1 := w.(stacks := map[one := [Held(a, 0)]], modes := map[one := Global]);
    var w2 := w.(alive := w.alive[a := w.made + 1], made := w.made + 1,
                 stacks := map[one := [Held(a, 0)], other := [Held(a, w.made + 1)]],
                 modes := map[one := Global, other := Global]);
    var e1, e2, e3 := Request(one, Call.SetCurrent(a)), Request(other, Call.Create(a)), Request(one, Call.Work);
    SelectsTheDead(w, w1, a, one, cap);
    assert Happens(w1, e2, cap) == (w2, [Named(a)]) by { CreatesThere(w1, w2, a, other, cap); }
    assert Happens(w2, e3, cap) == (w2, [Done(ContextIsDestroyed)]);
    hide Happens;
    RunOne(w, e1, cap);
    RunAppend(w, [e1], [e2], cap);
    RunOne(w1, e2, cap);
    RunAppend(w, [e1] + [e2], [e3], cap);
    RunOne(w2, e3, cap);
    assert DeadHandleRun(a, one, other) == [e1] + [e2] + [e3];
  }

  lemma SelectsTheDead(w: World, w': World, a: Addr, one: ThreadId, cap: nat)
    requires w.stacks == map[] && w.modes == map[] && a != 0 && a !in w.alive
    requires w' == w.(stacks := map[one := [Held(a, 0)]], modes := map[one := Global])
    ensures Happens(w, Request(one, Call.SetCurrent(a)), cap) == (w', [Done(Success)])
  {
    var k := Known(w, one);
    assert k.stacks == map[one := []] && k.modes == w'.modes;
    assert k.stacks[one := [Held(a, 0)]] == w'.stacks;
    assert Replaced([], Held(a, 0)) == [Held(a, 0)];
  }

  lemma CreatesThere(w: World, w': World, a: Addr, other: ThreadId, cap: nat)
    requires other !in w.stacks && other !in w.modes && a != 0 && a !in w.alive && cap >= 1
    requires w' == w.(alive := w.alive[a := w.made + 1], made := w.made + 1,
                      stacks := w.stacks[other := [Held(a, w.made + 1)]], modes := w.modes[other := Global])
    ensures Happens(w, Request(other, Call.Create(a)), cap) == (w', [Named(a)])
  {
    var k := Known(w, other);
    assert k.stacks[other := [Held(a, w.made + 1)]] == w'.stacks;
    assert [] + [Held(a, w.made + 1)] == [Held(a, w.made + 1)];
  }

  lemma SitsDown(s: Seats, id: ThreadId, call: Call, max: nat)
    requires id != 0 && s.retired == [] && |s.live| < max
    ensures CanSit(s, id, max) && Turn(s, Ask(id, call, false), max).0 == Seats(s.live + {id}, [])
  {
  }

  /** Two new threads: one selects the handle, the other is given a context at its address. */
  method SelectThenCreate(t: Threads, a: Addr, one: ThreadId, other: ThreadId)
    returns (first: Answer, second: Answer)
    requires t.Valid() && t.Kept() && t.SeatsNow() == NOBODY && t.maxLive >= 2 && t.driver.obliging
    requires a != 0 && a !in t.driver.alive && one != other && one != 0 && other != 0
    modifies t, t.driver
    ensures t.Valid() && t.Kept() && SeatsOk(t.SeatsNow(), t.maxLive) && one in t.live && one in t.slots
    ensures first == Done(Success) && second == Named(a) && t.slots[one].stack == [Saved(a, false)]
    ensures t.driver.made == old(t.driver.made) + 1 && a in t.driver.alive && t.driver.alive[a] == t.driver.made
  {
    hide Safe, Exact, Names, AllSafe, AllExact, SlotsOk, CtxsOf, Run, SelectsOnlyLive, Turn, Distinct, Known, AliveOk;
    assert t.slots == map[];
    SitsDown(NOBODY, one, Call.SetCurrent(a), t.maxLive);
    first := t.ServeCall(one, Call.SetCurrent(a), false);
    SitsDown(t.SeatsNow(), other, Call.Create(a), t.maxLive);
    second := t.ServeCall(other, Call.Create(a), false);
  }

  /** The server runs the work in the other thread's context instead. */
  method DeadHandleServed(t: Threads, a: Addr, one: ThreadId, other: ThreadId) returns (answers: seq<Answer>)
    requires t.Valid() && t.Faithful() && t.Kept() && t.SeatsNow() == NOBODY && t.maxLive >= 2
    requires a != 0 && a !in t.driver.alive && one != other && one != 0 && other != 0
    modifies t, t.driver
    ensures t.Valid() && t.driver.made == old(t.driver.made) + 1
    ensures answers == [Done(Success), Named(a), RanIn(t.driver.made)]
    ensures Run(old(t.View()), DeadHandleRun(a, one, other), t.cap).1
         == [Done(Success), Named(a), Done(ContextIsDestroyed)]
  {
    hide Safe, Exact, Names, AllExact, SlotsOk, Step, SelectsDead, CtxsOf, Run, SelectsOnlyLive;
    assert t.slots.Keys == {} && t.held.Keys == {};
    DeadHandleAnswers(t.View(), a, one, other, t.cap);
    hide AllSafe, Turn, Distinct, Known;
    var first, second := SelectThenCreate(t, a, one, other);
    var third := t.ServeCall(one, Call.Work, false);
    answers := [first, second, third];
  }

  lemma MarkTop(t: ClientThread, h: seq<Held>, alive: map<Addr, Ident>, made: nat)
    requires t.stack != [] && Safe(t.stack, h, alive, made) && t.stackCtxs == CtxsOf(t.stack)
    ensures var marked := Replaced(t.stack, Saved(Last(t.stack).ctx, true));
            Safe(marked, h, alive, made) && t.stackCtxs == CtxsOf(marked)
  {
    var s, marked := t.stack, Replaced(t.stack, Saved(Last(t.stack).ctx, true));
    forall c ensures c in CtxsOf(marked) <==> c in CtxsOf(s) {
      if c in CtxsOf(marked) {
        var i :| 0 <= i < |marked| && marked[i].ctx == c;
        assert s[i] in s && s[i].ctx == c;
      }
      if c in CtxsOf(s) {
        var i :| 0 <= i < |s| && s[i].ctx == c;
        assert marked[i] in marked && marked[i].ctx == c;
      }
    }
  }
}
