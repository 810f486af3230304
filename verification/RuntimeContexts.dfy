/**
  The runtime library's context per thread (client/cudart_impl.cpp): a thread skips selecting its
  context while its generation is the process's, and a reset moves the process's on.

  A step is what one thread does between two points where another may run. A context is named by
  the retain that gave it out, so one retained again after a reset is another context.
 */
module RuntimeContexts {
  import opened Wrappers

  type Dev = nat
  type Thread = nat
  type Context = nat

  /** Where a thread is in ensure_context, once it has looked under the lock. */
  datatype Phase =
    | Idle
    | Looked(ctx: Context, gen: nat)
    | Selected(ctx: Context, gen: nat)   // cuCtxSetCurrent has succeeded

  datatype Local = Local(
    device: Dev,                // t_device
    ctxGen: nat,                // t_ctx_gen; 0 never matches
    phase: Phase,
    selected: Option<Context>)  // what the thread last made current

  const NEW_THREAD := Local(0, 0, Idle, None)

  /** How far a reset has got; g_ctx_mu is held throughout. */
  datatype Reset = NoReset | Releasing | Cleared

  datatype State = State(
    primary: map<Dev, Context>,  // g_primary
    gen: nat,                    // g_ctx_gen
    reset: Reset,
    retains: nat,                // retains made so far
    held: map<Context, Dev>,     // the driver's: what this process has retained and not released
    threads: seq<Local>)

  const INIT := State(map[], 1, NoReset, 0, map[], [])

  datatype Step =
    | Start
    | SetDevice(t: Thread, d: Dev)
    | Look(t: Thread)
    | SetCurrent(t: Thread)
    | Adopt(t: Thread)
    | GiveUp(t: Thread)
    | BeginReset
    | ClearPrimaries
    | EndReset

  predicate At(st: State, t: Thread) {
    t < |st.threads|
  }

  predicate Enabled(st: State, step: Step) {
    match step
    case Start => true
    case SetDevice(t, _) => At(st, t) && st.threads[t].phase == Idle
    case Look(t) =>
      At(st, t) && st.threads[t].phase == Idle && st.reset == NoReset && st.threads[t].ctxGen != st.gen
    case SetCurrent(t) => At(st, t) && st.threads[t].phase.Looked?
    case Adopt(t) => At(st, t) && st.threads[t].phase.Selected?
    case GiveUp(t) => At(st, t) && st.threads[t].phase.Looked?
    case BeginReset => st.reset == NoReset
    case ClearPrimaries => st.reset == Releasing
    case EndReset => st.reset == Cleared
  }

  /** Under the lock: the generation, and the device's context, retained if it is not yet. */
  function Looking(st: State, t: Thread): State
    requires t < |st.threads|
  {
    var l := st.threads[t];
    if l.device in st.primary then
      st.(threads := st.threads[t := l.(phase := Looked(st.primary[l.device], st.gen))])
    else
      var c := st.retains + 1;
      st.(retains := c, held := st.held[c := l.device], primary := st.primary[l.device := c],
          threads := st.threads[t := l.(phase := Looked(c, st.gen))])
  }

  /** Every context in the table is released. */
  function Released(held: map<Context, Dev>, primary: map<Dev, Context>): map<Context, Dev> {
    held - set d | d in primary :: primary[d]
  }

  function Apply(st: State, step: Step): State
    requires Enabled(st, step)
  {
    match step
    case Start => st.(threads := st.threads + [NEW_THREAD])
    case SetDevice(t, d) =>
      var l := st.threads[t];
      if l.device == d then st else st.(threads := st.threads[t := l.(device := d, ctxGen := 0)])
    case Look(t) => Looking(st, t)
    case SetCurrent(t) =>
      var l := st.threads[t];
      st.(threads := st.threads[t := l.(selected := Some(l.phase.ctx), phase := Selected(l.phase.ctx, l.phase.gen))])
    case Adopt(t) =>
      var l := st.threads[t];
      st.(threads := st.threads[t := l.(ctxGen := l.phase.gen, phase := Idle)])
    case GiveUp(t) => st.(threads := st.threads[t := st.threads[t].(phase := Idle)])
    case BeginReset => st.(held := Released(st.held, st.primary), reset := Releasing)
    case ClearPrimaries => st.(primary := map[], reset := Cleared)
    case EndReset => st.(gen := st.gen + 1, reset := NoReset)
  }

  /** The context is the one now retained for the device. */
  ghost predicate Retained(st: State, d: Dev, c: Context) {
    d in st.primary && st.primary[d] == c
  }

  /** What a thread holds of this generation is what the process holds, until a reset clears it. */
  ghost predicate LocalOk(st: State, l: Local) {
    && l.ctxGen <= st.gen && (l.phase != Idle ==> l.ctxGen < l.phase.gen <= st.gen)
    && (l.phase.Selected? ==> l.selected == Some(l.phase.ctx))
    && (st.reset != Cleared ==>
          && (l.phase != Idle && l.phase.gen == st.gen ==> Retained(st, l.device, l.phase.ctx))
          && (l.ctxGen == st.gen ==> l.selected.Some? && Retained(st, l.device, l.selected.value)))
  }

  /** The table holds what the driver has retained, each context once and for its own device. */
  ghost predicate HeldOk(st: State) {
    && (forall c :: c in st.held ==> c <= st.retains)
    && (st.reset == NoReset ==>
          && (forall d :: d in st.primary ==> st.primary[d] in st.held && st.held[st.primary[d]] == d)
          && (forall c :: c in st.held ==> st.held[c] in st.primary && st.primary[st.held[c]] == c))
    && (st.reset != NoReset ==> st.held == map[])
    && (st.reset == Cleared ==> st.primary == map[])
  }

  ghost predicate Inv(st: State) {
    st.gen >= 1 && HeldOk(st) && forall t :: 0 <= t < |st.threads| ==> LocalOk(st, st.threads[t])
  }

  lemma StepKeeps(st: State, step: Step)
    requires Inv(st) && Enabled(st, step)
    ensures Inv(Apply(st, step))
  {
    var st' := Apply(st, step);
    HeldStep(st, step);
    hide HeldOk;
    forall t | 0 <= t < |st'.threads| ensures LocalOk(st', st'.threads[t]) {
      if t < |st.threads| {
        assert LocalOk(st, st.threads[t]);
      }
    }
  }

  lemma HeldStep(st: State, step: Step)
    requires HeldOk(st) && Enabled(st, step)
    ensures HeldOk(Apply(st, step))
  {
    if step.BeginReset? {
      assert forall c :: c in st.held ==> st.primary[st.held[c]] == c;
      assert Released(st.held, st.primary) == map[];
    }
  }

  ghost predicate IsRun(states: seq<State>, steps: seq<Step>) {
    && |states| == |steps| + 1
    && states[0] == INIT
    && forall i :: 0 <= i < |steps| ==> Moves(states[i], steps[i], states[i + 1])
  }

  ghost predicate Moves(st: State, step: Step, st': State) {
    Enabled(st, step) && st' == Apply(st, step)
  }

  lemma {:induction false} RunInv(states: seq<State>, steps: seq<Step>, n: nat)
    requires IsRun(states, steps) && n < |states|
    ensures Inv(states[n])
  {
    if n > 0 {
      RunInv(states, steps, n - 1);
      assert Moves(states[n - 1], steps[n - 1], states[n]);
      StepKeeps(states[n - 1], steps[n - 1]);
    }
  }

  /** The device a thread has asked for: that of its own last cudaSetDevice, and 0 before any. */
  function DeviceOf(steps: seq<Step>, t: Thread): Dev {
    if steps == [] then 0
    else
      var last := steps[|steps| - 1];
      if last.SetDevice? && last.t == t then last.d else DeviceOf(steps[..|steps| - 1], t)
  }

  /** A thread is on the device it asked for, whatever the other threads do. */
  lemma {:induction false} DeviceIsOwn(states: seq<State>, steps: seq<Step>, n: nat, t: Thread)
    requires IsRun(states, steps) && n < |states|
    ensures if t < |states[n].threads| then states[n].threads[t].device == DeviceOf(steps[..n], t)
            else DeviceOf(steps[..n], t) == 0
  {
    if n > 0 {
      DeviceIsOwn(states, steps, n - 1, t);
      assert Moves(states[n - 1], steps[n - 1], states[n]);
      assert steps[..n][..n - 1] == steps[..n - 1];
    }
  }

  /**
    Whenever no reset is under way, a thread whose generation is the process's, and so skips
    selecting, last selected a context that is still retained, of the device it asked for last.
   */
  lemma SkippingIsSafe(states: seq<State>, steps: seq<Step>, n: nat, t: Thread)
    requires IsRun(states, steps) && n < |states| && t < |states[n].threads| && states[n].reset == NoReset
    requires states[n].threads[t].ctxGen == states[n].gen
    ensures var st, l, d := states[n], states[n].threads[t], DeviceOf(steps[..n], t);
            && l.selected.Some? && l.selected.value in st.held && st.held[l.selected.value] == d
            && d in st.primary && st.primary[d] == l.selected.value
  {
    RunInv(states, steps, n);
    DeviceIsOwn(states, steps, n, t);
    assert LocalOk(states[n], states[n].threads[t]);
  }

  /** Outside a reset every retain that was not released is in the table, for one device; a reset releases them all. */
  lemma NothingRetainedTwice(states: seq<State>, steps: seq<Step>, n: nat)
    requires IsRun(states, steps) && n < |states|
    ensures var st := states[n];
            && (st.reset == NoReset ==>
                  forall c, d :: c in st.held && st.held[c] == d <==> d in st.primary && st.primary[d] == c)
            && (st.reset != NoReset ==> st.held == map[])
  {
    RunInv(states, steps, n);
  }

  /** A thread that skips is reached from the beginning, on any device and after any number of resets. */
  lemma SkippingHappens(d: Dev) returns (states: seq<State>, steps: seq<Step>)
    requires d != 0
    ensures IsRun(states, steps)
    ensures var st := states[|steps|];
            |st.threads| == 1 && st.reset == NoReset && st.gen == 2 && st.threads[0].ctxGen == st.gen
            && DeviceOf(steps, 0) == d
  {
    var idle := NEW_THREAD.(device := d);
    steps := [Start, SetDevice(0, d), BeginReset, ClearPrimaries, EndReset, Look(0), SetCurrent(0), Adopt(0)];
    var s2 := INIT.(threads := [idle]);
    var s5 := s2.(gen := 2);
    var s6 := s5.(primary := map[d := 1], retains := 1, held := map[1 := d], threads := [idle.(phase := Looked(1, 2))]);
    var s7 := s6.(threads := [idle.(phase := Selected(1, 2), selected := Some(1))]);
    var s8 := s6.(threads := [idle.(ctxGen := 2, selected := Some(1))]);
    states := [INIT, INIT.(threads := [NEW_THREAD]), s2, s2.(reset := Releasing), s2.(reset := Cleared), s5, s6, s7,
               s8];
    forall i | 0 <= i < |steps| ensures Moves(states[i], steps[i], states[i + 1]) {
      assert Apply(states[i], steps[i]).threads == states[i + 1].threads;
      assert Apply(states[i], steps[i]).primary == states[i + 1].primary;
      assert Apply(states[i], steps[i]).held == states[i + 1].held;
    }
    DeviceIsOwn(states, steps, 8, 0);
    assert steps[..8] == steps;
  }

  /** Asking again for the device a thread is on changes nothing, so its selection still holds. */
  lemma SameDeviceKeeps(states: seq<State>, steps: seq<Step>, n: nat, t: Thread)
    requires IsRun(states, steps) && n < |steps| && steps[n] == SetDevice(t, DeviceOf(steps[..n], t))
    ensures states[n + 1] == states[n]
  {
    DeviceIsOwn(states, steps, n, t);
    assert Moves(states[n], steps[n], states[n + 1]);
  }

  /** What one call leaves behind: the thread is idle again, with a selection or without. */
  lemma CallEnds(states: seq<State>, steps: seq<Step>, n: nat, t: Thread)
    requires IsRun(states, steps) && n < |steps| && (steps[n] == Adopt(t) || steps[n] == GiveUp(t))
    ensures t < |states[n + 1].threads| && states[n + 1].threads[t].phase == Idle
    ensures steps[n] == GiveUp(t) ==> states[n + 1].threads[t].ctxGen == states[n].threads[t].ctxGen
    ensures steps[n] == GiveUp(t) ==> states[n + 1].threads[t].selected == states[n].threads[t].selected
  {
    assert Moves(states[n], steps[n], states[n + 1]);
  }

  /** Two threads on one device: the second fails to select once, and both end up skipping, on the same context. */
  lemma ContextIsShared() returns (states: seq<State>, steps: seq<Step>)
    ensures IsRun(states, steps)
    ensures var st := states[|steps|];
            && |st.threads| == 2 && st.reset == NoReset && st.retains == 1
            && st.threads[0].ctxGen == st.gen == st.threads[1].ctxGen
            && st.threads[0].selected == st.threads[1].selected == Some(1)
  {
    steps := [Start, Start, Look(0), SetCurrent(0), Adopt(0), Look(1), GiveUp(1), Look(1), SetCurrent(1), Adopt(1)];
    states := [INIT, INIT.(threads := [NEW_THREAD]), INIT.(threads := [NEW_THREAD, NEW_THREAD]),
               Two(NEW_THREAD.(phase := Looked(1, 1)), NEW_THREAD),
               Two(Local(0, 0, Selected(1, 1), Some(1)), NEW_THREAD),
               Two(SKIPS, NEW_THREAD), Two(SKIPS, NEW_THREAD.(phase := Looked(1, 1))), Two(SKIPS, NEW_THREAD),
               Two(SKIPS, NEW_THREAD.(phase := Looked(1, 1))), Two(SKIPS, Local(0, 0, Selected(1, 1), Some(1))),
               Two(SKIPS, SKIPS)];
    FirstSelects();
    SecondSelects();
    hide Moves;
  }

  const SKIPS := Local(0, 1, Idle, Some(1))

  function Two(a: Local, b: Local): State {
    State(map[0 := 1], 1, NoReset, 1, map[1 := 0], [a, b])
  }

  lemma FirstSelects()
    ensures Moves(INIT, Start, INIT.(threads := [NEW_THREAD]))
    ensures Moves(INIT.(threads := [NEW_THREAD]), Start, INIT.(threads := [NEW_THREAD, NEW_THREAD]))
    ensures Moves(INIT.(threads := [NEW_THREAD, NEW_THREAD]), Look(0),
                  Two(NEW_THREAD.(phase := Looked(1, 1)), NEW_THREAD))
    ensures Moves(Two(NEW_THREAD.(phase := Looked(1, 1)), NEW_THREAD), SetCurrent(0),
                  Two(Local(0, 0, Selected(1, 1), Some(1)), NEW_THREAD))
    ensures Moves(Two(Local(0, 0, Selected(1, 1), Some(1)), NEW_THREAD), Adopt(0), Two(SKIPS, NEW_THREAD))
  {
  }

  lemma SecondSelects()
    ensures Moves(Two(SKIPS, NEW_THREAD), Look(1), Two(SKIPS, NEW_THREAD.(phase := Looked(1, 1))))
    ensures Moves(Two(SKIPS, NEW_THREAD.(phase := Looked(1, 1))), GiveUp(1), Two(SKIPS, NEW_THREAD))
    ensures Moves(Two(SKIPS, NEW_THREAD.(phase := Looked(1, 1))), SetCurrent(1),
                  Two(SKIPS, Local(0, 0, Selected(1, 1), Some(1))))
    ensures Moves(Two(SKIPS, Local(0, 0, Selected(1, 1), Some(1))), Adopt(1), Two(SKIPS, SKIPS))
  {
  }
}
