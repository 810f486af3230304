/**
  What CUDA's documentation promises of a thread's context stack, as laws that relate one call to
  the next. `Contexts.Step` is held to them, and the server to `Contexts.Step`.
 */
module ContextLaws {
  import opened ThreadTable
  import opened Contexts

  /** What every call leaves true: identities are given out once, and stacks name what was given out. */
  ghost predicate WorldOk(w: World) {
    && AliveOk(w.alive, w.made) && w.stacks.Keys == w.modes.Keys
    && forall t, i :: t in w.stacks && 0 <= i < |w.stacks[t]| ==>
         w.stacks[t][i].ident <= w.made && w.stacks[t][i].ctx != 0
  }

  /** The world after the call, and the answer. */
  function Then(w: World, id: ThreadId, call: Call, cap: nat): World
    requires id in w.stacks && id in w.modes
  {
    Step(w, id, call, cap).0
  }

  function Says(w: World, id: ThreadId, call: Call, cap: nat): Answer
    requires id in w.stacks && id in w.modes
  {
    Step(w, id, call, cap).1
  }

  lemma StepOk(w: World, id: ThreadId, call: Call, cap: nat)
    requires WorldOk(w) && id in w.stacks
    ensures WorldOk(Then(w, id, call, cap)) && Then(w, id, call, cap).stacks.Keys == w.stacks.Keys
  {
    var w' := Then(w, id, call, cap);
    forall t, i | t in w'.stacks && 0 <= i < |w'.stacks[t]|
      ensures w'.stacks[t][i].ident <= w'.made && w'.stacks[t][i].ctx != 0
    {
      assert t in w.stacks;
    }
  }

  /** Calls of one thread do nothing to another's stack or mode. */
  lemma OthersUntouched(w: World, id: ThreadId, call: Call, cap: nat, t: ThreadId)
    requires WorldOk(w) && id in w.stacks && t in w.stacks && t != id
    ensures var w' := Then(w, id, call, cap);
            && t in w'.stacks && w'.stacks[t] == w.stacks[t] && t in w'.modes && w'.modes[t] == w.modes[t]
            && Says(w', t, Call.GetCurrent, cap) == Says(w, t, Call.GetCurrent, cap)
            && Says(w', t, Call.Pop, cap) == Says(w, t, Call.Pop, cap)
  {
  }

  /** Asking and working change nothing. */
  lemma AskingChangesNothing(w: World, id: ThreadId, cap: nat)
    requires WorldOk(w) && id in w.stacks
    ensures Then(w, id, Call.GetCurrent, cap) == w && Then(w, id, Call.Work, cap) == w
  {
  }

  /** Exchanging the capture mode twice gives both modes back, and changes nothing else. */
  lemma ExchangeTwice(w: World, id: ThreadId, m: Mode, cap: nat)
    requires WorldOk(w) && id in w.stacks
    ensures var first := Says(w, id, ExchangeMode(m), cap); var e := Then(w, id, ExchangeMode(m), cap);
            && first.WasIn? && e == w.(modes := e.modes)
            && Says(e, id, ExchangeMode(first.mode), cap) == WasIn(m)
            && Then(e, id, ExchangeMode(first.mode), cap) == w
  {
  }

  /** A thread seen for the first time has no context, and is in the default capture mode. */
  lemma NewThread(w: World, id: ThreadId, cap: nat)
    requires WorldOk(w) && id !in w.stacks
    ensures var k := Known(w, id);
            && WorldOk(k)
            && Says(k, id, Call.GetCurrent, cap) == Named(0)
            && Says(k, id, Call.Work, cap) == Done(InvalidContext)
            && Says(k, id, Call.Pop, cap) == Done(InvalidContext)
            && Says(k, id, ExchangeMode(Relaxed), cap) == WasIn(Global)
            && k.alive == w.alive && k.made == w.made
            && forall t :: t in w.stacks ==> t in k.stacks && k.stacks[t] == w.stacks[t] && k.modes[t] == w.modes[t]
  {
  }

  /** Forgetting a thread makes it new, and leaves the others alone. */
  lemma ForgottenIsNew(w: World, id: ThreadId)
    requires WorldOk(w)
    ensures var f := Forgets(w, id);
            && WorldOk(f) && id !in f.stacks && f.alive == w.alive && f.made == w.made
            && forall t :: t in w.stacks && t != id ==>
                 t in f.stacks && f.stacks[t] == w.stacks[t] && f.modes[t] == w.modes[t]
  {
  }

  lemma DroppedLast<T>(s: seq<T>, x: T)
    ensures Dropped(s + [x]) == s && Last(s + [x]) == x
  {
  }

  /** A push the server takes makes the handle current, and a pop names it and undoes it. */
  lemma PushThenPop(w: World, id: ThreadId, a: Addr, cap: nat)
    requires WorldOk(w) && id in w.stacks
    ensures Says(w, id, Push(a), cap) == Done(Success) <==> a != 0 && |w.stacks[id]| < cap
    ensures Says(w, id, Push(a), cap) == Done(Success) ==>
      var p := Then(w, id, Push(a), cap);
      && Says(p, id, Call.GetCurrent, cap) == Named(a)
      && Says(p, id, Call.Pop, cap) == Named(a) && Then(p, id, Call.Pop, cap) == w
    ensures Says(w, id, Push(a), cap) != Done(Success) ==> Then(w, id, Push(a), cap) == w
  {
    DroppedLast(w.stacks[id], Bind(w.alive, a));
    if a != 0 && |w.stacks[id]| < cap {
      assert Then(Then(w, id, Push(a), cap), id, Call.Pop, cap).stacks == w.stacks;
    }
  }

  /** Selecting a handle makes it current in place of what was, and leaves what is below. */
  lemma SelectReplaces(w: World, id: ThreadId, a: Addr, cap: nat)
    requires WorldOk(w) && id in w.stacks && a != 0 && cap > 0
    ensures var w' := Then(w, id, Call.SetCurrent(a), cap);
            && Says(w, id, Call.SetCurrent(a), cap) == Done(Success)
            && Says(w', id, Call.GetCurrent, cap) == Named(a)
            && Says(w', id, Call.Work, cap) == (if a in w.alive then RanIn(w.alive[a]) else Done(ContextIsDestroyed))
            && w'.alive == w.alive && w'.made == w.made
            && (w.stacks[id] == [] ==> Then(w', id, Call.Pop, cap) == w)
            && (w.stacks[id] != [] ==> Then(w', id, Call.Pop, cap) == Then(w, id, Call.Pop, cap))
  {
    DroppedLast(Dropped(w.stacks[id]), Bind(w.alive, a));
    var w' := Then(w, id, Call.SetCurrent(a), cap);
    assert Then(w', id, Call.Pop, cap).stacks
        == if w.stacks[id] == [] then w.stacks else Then(w, id, Call.Pop, cap).stacks;
  }

  /** Selecting nothing takes the current context off, as a pop does, and is no error on an empty stack. */
  lemma SelectNothing(w: World, id: ThreadId, cap: nat)
    requires WorldOk(w) && id in w.stacks
    ensures Says(w, id, Call.SetCurrent(0), cap) == Done(Success)
    ensures Then(w, id, Call.SetCurrent(0), cap) == Then(w, id, Call.Pop, cap)
    ensures Says(w, id, Call.Pop, cap) == Done(InvalidContext) <==> Says(w, id, Call.GetCurrent, cap) == Named(0)
  {
    if w.stacks[id] == [] {
      assert w.stacks[id := Dropped(w.stacks[id])] == w.stacks;
    }
  }

  /** A context made is current, new, and the one work runs in. */
  lemma MadeIsCurrent(w: World, id: ThreadId, a: Addr, cap: nat)
    requires WorldOk(w) && id in w.stacks
    ensures Says(w, id, Create(a), cap) == Named(a) <==> a != 0 && a !in w.alive && |w.stacks[id]| < cap
    ensures Says(w, id, Create(a), cap) == Named(a) ==>
      var c := Then(w, id, Create(a), cap);
      && a in c.alive && c.alive[a] !in w.alive.Values && c.alive - {a} == w.alive
      && Says(c, id, Call.GetCurrent, cap) == Named(a) && Says(c, id, Call.Work, cap) == RanIn(c.alive[a])
    ensures Says(w, id, Create(a), cap) != Named(a) ==> Then(w, id, Create(a), cap) == w
    ensures |w.stacks[id]| >= cap ==> Says(w, id, Create(a), cap) == Done(InvalidValue)
  {
    DroppedLast(w.stacks[id], Held(a, w.made + 1));
    if a != 0 && a !in w.alive && |w.stacks[id]| < cap {
      assert (Then(w, id, Create(a), cap).alive - {a}) == w.alive;
    }
  }

  /** Destroying the context just made undoes it, for the thread and for which contexts there are. */
  lemma CreateThenDestroy(w: World, id: ThreadId, a: Addr, cap: nat)
    requires WorldOk(w) && id in w.stacks && Says(w, id, Create(a), cap) == Named(a)
    ensures var c := Then(w, id, Create(a), cap);
            && Says(c, id, Destroy(a), cap) == Done(Success)
            && Then(c, id, Destroy(a), cap) == w.(made := w.made + 1)
            && Says(Then(c, id, Destroy(a), cap), id, Call.GetCurrent, cap) == Says(w, id, Call.GetCurrent, cap)
  {
    MadeIsCurrent(w, id, a, cap);
    DroppedLast(w.stacks[id], Held(a, w.made + 1));
    var c := Then(w, id, Create(a), cap);
    assert c.stacks[id := w.stacks[id]] == w.stacks;
  }

  /**
    Destroying the current context pops it from the caller's stack. To every other thread it stays
    current and is still named, and work there fails because it is destroyed.
   */
  lemma DestroyPopsOnlyTheCaller(w: World, id: ThreadId, t: ThreadId, a: Addr, cap: nat)
    requires WorldOk(w) && id in w.stacks && t in w.stacks && t != id && a in w.alive
    requires w.stacks[t] != [] && Last(w.stacks[t]) == Bind(w.alive, a)
    ensures var d := Then(w, id, Destroy(a), cap);
            && Says(w, id, Destroy(a), cap) == Done(Success) && a !in d.alive
            && Says(w, t, Call.Work, cap) == RanIn(w.alive[a])
            && Says(d, t, Call.GetCurrent, cap) == Named(a)
            && Says(d, t, Call.Work, cap) == Done(ContextIsDestroyed)
            && Says(d, id, Destroy(a), cap) == Done(InvalidContext)
            && (w.stacks[id] != [] && Last(w.stacks[id]) == Bind(w.alive, a) ==>
                  d.stacks == Then(w, id, Call.Pop, cap).stacks)
            && (w.stacks[id] == [] || Last(w.stacks[id]).ctx != a ==> d.stacks == w.stacks)
  {
    var d := Then(w, id, Destroy(a), cap);
    assert w.stacks[id] == [] || Last(w.stacks[id]).ctx != a ==> d.stacks == w.stacks;
  }

  /** A context made elsewhere is new, and nobody here has it. */
  lemma AppearsNew(w: World, a: Addr)
    requires WorldOk(w)
    ensures var e := Appears(w, a);
            && WorldOk(e) && e.stacks == w.stacks && e.modes == w.modes
            && (a == 0 || a in w.alive ==> e == w)
            && (a != 0 && a !in w.alive ==>
                  a in e.alive && e.alive[a] !in w.alive.Values && e.alive - {a} == w.alive
                  && forall t, i :: t in w.stacks && 0 <= i < |w.stacks[t]| && Names(e.alive, w.stacks[t][i]) ==>
                       Names(w.alive, w.stacks[t][i]))
  {
    if a != 0 && a !in w.alive {
      assert Appears(w, a).alive - {a} == w.alive;
    }
  }

  /** A request of the thread, or the loss of its slot. */
  predicate Concerns(e: Event, t: ThreadId) {
    (e.Request? && e.thread == t) || (e.Forgotten? && e.thread == t)
  }

  /** Over any run, a thread's stack and mode are its own: nothing but its own calls changes them. */
  lemma {:induction false} StackIsOwn(w: World, events: seq<Event>, t: ThreadId, cap: nat)
    requires WorldOk(w) && t in w.stacks && forall i :: 0 <= i < |events| ==> !Concerns(events[i], t)
    ensures var r := Run(w, events, cap).0;
            WorldOk(r) && t in r.stacks && r.stacks[t] == w.stacks[t] && r.modes[t] == w.modes[t]
  {
    if events != [] {
      StackIsOwn(w, events[..|events| - 1], t, cap);
      HappensToOthers(Run(w, events[..|events| - 1], cap).0, Last(events), t, cap);
      hide Happens;
    }
  }

  lemma HappensToOthers(w: World, e: Event, t: ThreadId, cap: nat)
    requires WorldOk(w) && t in w.stacks && !Concerns(e, t)
    ensures var r := Happens(w, e, cap).0;
            WorldOk(r) && t in r.stacks && r.stacks[t] == w.stacks[t] && r.modes[t] == w.modes[t]
  {
    match e
    case Request(id, call) =>
      if id !in w.stacks { NewThread(w, id, cap); }
      StepOk(Known(w, id), id, call, cap);
      OthersUntouched(Known(w, id), id, call, cap, t);
    case Seat(id) =>
      if id !in w.stacks { NewThread(w, id, cap); }
    case Forgotten(id) => ForgottenIsNew(w, id);
    case Elsewhere(a) => AppearsNew(w, a);
    case Replied(_) =>
  }
}
