/**
  Telling the server which client threads have exited (client/rpc.cpp). A thread's exit only lists
  its id, under a lock of its own; the next frame any other thread queues carries the list.

  Frames are queued under g_mu, one call at a time, but a thread may exit between any two of the
  steps of that call, and may go on calling after it has exited as far as this list is concerned.
 */
module Retirement {
  type Thread = nat

  /** What is queued for the server: a call, or a notice naming threads that are gone. */
  datatype Frame = Frame(thread: Thread, gone: seq<Thread>)

  /** Where the call holding g_mu is in queue_frame_locked. */
  datatype Stage =
    | Begun
    | Swapped(gone: seq<Thread>)
    | Announced
    | Queued

  datatype Caller = NoCall | Calling(thread: Thread, stage: Stage)

  datatype State = State(
    listed: seq<Thread>,      // g_retired
    haveListed: bool,         // g_have_retired
    exited: set<Thread>,      // threads whose t_retired is set
    frames: seq<Frame>,       // everything queued so far, in order
    caller: Caller)

  const INIT := State([], false, {}, [], NoCall)

  datatype Step =
    | Exit(t: Thread)         // ~ThreadRetirer
    | Begin(t: Thread)
    | Pass                    // the flag read as unset
    | Swap
    | Announce
    | Queue
    | Relist

  predicate Enabled(st: State, step: Step) {
    match step
    case Exit(t) => t !in st.exited && !(st.caller.Calling? && st.caller.thread == t)
    case Begin(t) => st.caller == NoCall
    case Pass => st.caller.Calling? && st.caller.stage == Begun
    case Swap => st.caller.Calling? && st.caller.stage == Begun && st.haveListed
    case Announce => st.caller.Calling? && st.caller.stage.Swapped?
    case Queue => st.caller.Calling? && st.caller.stage == Announced
    case Relist => st.caller.Calling? && st.caller.stage == Queued
  }

  /** The list without one id, in order. */
  function Without(s: seq<Thread>, t: Thread): seq<Thread> {
    if s == [] then []
    else Without(s[..|s| - 1], t) + if s[|s| - 1] == t then [] else [s[|s| - 1]]
  }

  function Apply(st: State, step: Step): State
    requires Enabled(st, step)
  {
    match step
    case Exit(t) => st.(listed := st.listed + [t], haveListed := true, exited := st.exited + {t})
    case Begin(t) => st.(caller := Calling(t, Begun))
    case Pass => st.(caller := st.caller.(stage := Announced))
    case Swap =>
      var t := st.caller.thread;
      var kept := if t in st.listed then [t] else [];
      st.(listed := kept, haveListed := kept != [],
          caller := st.caller.(stage := Swapped(Without(st.listed, t))))
    case Announce =>
      var gone := st.caller.stage.gone;
      st.(frames := if gone == [] then st.frames else st.frames + [Frame(st.caller.thread, gone)],
          caller := st.caller.(stage := Announced))
    case Queue =>
      st.(frames := st.frames + [Frame(st.caller.thread, [])], caller := st.caller.(stage := Queued))
    case Relist =>
      var t := st.caller.thread;
      if t !in st.exited then st.(caller := NoCall)
      else
        st.(listed := if t in st.listed then st.listed else st.listed + [t], haveListed := true, caller := NoCall)
  }

  ghost predicate Distinct(s: seq<Thread>) {
    forall i, j :: 0 <= i < j < |s| ==> s[i] != s[j]
  }

  /** A notice naming the thread was queued, and nothing of the thread's own after it. */
  ghost predicate Told(frames: seq<Frame>, t: Thread) {
    exists i :: 0 <= i < |frames| && t in frames[i].gone && SilentFrom(frames, i, t)
  }

  ghost predicate SilentFrom(frames: seq<Frame>, i: nat, t: Thread) {
    forall j :: i <= j < |frames| ==> frames[j].thread != t
  }

  /** No frame carries a notice naming its own thread. */
  ghost predicate NoSelfNotice(frames: seq<Frame>) {
    forall i :: 0 <= i < |frames| ==> frames[i].thread !in frames[i].gone
  }

  /** The ids the call under way has taken off the list and not yet announced. */
  function InHand(c: Caller): seq<Thread> {
    if c.Calling? && c.stage.Swapped? then c.stage.gone else []
  }

  ghost predicate Accounted(st: State, t: Thread) {
    t in st.listed || t in InHand(st.caller) || Told(st.frames, t)
  }

  ghost predicate Inv(st: State) {
    && Distinct(st.listed) && NoSelfNotice(st.frames)
    && (st.caller.Calling? ==> st.caller.thread !in InHand(st.caller))
    && (st.listed != [] <==> st.haveListed)
    && (forall t :: t in st.listed ==> t in st.exited)
    && (forall t :: t in InHand(st.caller) ==> t in st.exited)
    && (forall i, t :: 0 <= i < |st.frames| && t in st.frames[i].gone ==> t in st.exited)
    && forall t :: t in st.exited && !(st.caller.Calling? && st.caller.thread == t) ==> Accounted(st, t)
  }

  lemma {:induction false} WithoutHolds(s: seq<Thread>, t: Thread)
    ensures forall x :: x in Without(s, t) <==> x in s && x != t
  {
    if s != [] {
      var init, last := s[..|s| - 1], s[|s| - 1];
      WithoutHolds(init, t);
      assert s == init + [last];
    }
  }

  /** A frame of another thread's leaves what was told told. */
  lemma ToldStays(frames: seq<Frame>, f: Frame, t: Thread)
    requires Told(frames, t) && f.thread != t
    ensures Told(frames + [f], t)
  {
    var i :| 0 <= i < |frames| && t in frames[i].gone && SilentFrom(frames, i, t);
    var after := frames + [f];
    assert t in after[i].gone && SilentFrom(after, i, t);
  }

  lemma NoticeTells(frames: seq<Frame>, f: Frame, t: Thread)
    requires t in f.gone && f.thread != t
    ensures Told(frames + [f], t)
  {
    var after := frames + [f];
    assert t in after[|frames|].gone && SilentFrom(after, |frames|, t);
  }

  lemma StepKeeps(st: State, step: Step)
    requires Inv(st) && Enabled(st, step)
    ensures Inv(Apply(st, step))
  {
    hide Told;
    var st' := Apply(st, step);
    if step.Swap? {
      WithoutHolds(st.listed, st.caller.thread);
    }
    forall t | t in st'.exited && !(st'.caller.Calling? && st'.caller.thread == t) ensures Accounted(st', t) {
      if step.Exit? && t == step.t {
        assert st'.listed[|st.listed|] == t;
      } else if st.caller.Calling? && st.caller.thread == t {
        assert step.Relist?;
        assert t !in st.listed ==> st'.listed[|st.listed|] == t;
      } else {
        assert Accounted(st, t);
        if step.Announce? && st.caller.stage.gone != [] {
          var f := Frame(st.caller.thread, st.caller.stage.gone);
          if t in f.gone {
            NoticeTells(st.frames, f, t);
          } else if Told(st.frames, t) {
            ToldStays(st.frames, f, t);
          }
        } else if step.Queue? && Told(st.frames, t) {
          ToldStays(st.frames, Frame(st.caller.thread, []), t);
        }
      }
    }
  }

  ghost predicate IsRun(states: seq<State>, steps: seq<Step>) {
    && |states| == |steps| + 1
    && states[0] == INIT
    && forall i :: 0 <= i < |steps| ==> Moves(states[i], steps[i], states[i + 1])
  }

  ghost predicate Moves(st: State, step: Step, st': State) {
    Enabled(st, step) && st' == Apply(st, step)
  }

  lemma {:induction false} RunInv(states: seq<State>, steps: seq<Step>, n: nat)
    requires IsRun(states, steps) && n < |states|
    ensures Inv(states[n])
  {
    if n > 0 {
      RunInv(states, steps, n - 1);
      assert Moves(states[n - 1], steps[n - 1], states[n]);
      StepKeeps(states[n - 1], steps[n - 1]);
    }
  }

  /**
    After a thread exits, its id is still listed, or a notice naming it was queued after the last
    frame it ever queued; no thread's own frame names it; and no id is listed twice.
   */
  lemma ExitIsAnnounced(states: seq<State>, steps: seq<Step>, n: nat, t: Thread)
    requires IsRun(states, steps) && n < |states|
    ensures Distinct(states[n].listed) && NoSelfNotice(states[n].frames)
    ensures states[n].caller == NoCall && t in states[n].exited ==>
      (t in states[n].listed && states[n].haveListed) || Told(states[n].frames, t)
  {
    RunInv(states, steps, n);
    assert states[n].caller == NoCall && t in states[n].exited ==> Accounted(states[n], t);
  }

  /** The flag says whether anything is listed, and no thread is announced that has not exited. */
  lemma OnlyExitedAnnounced(states: seq<State>, steps: seq<Step>, n: nat)
    requires IsRun(states, steps) && n < |states|
    ensures states[n].haveListed <==> states[n].listed != []
    ensures forall i, t :: 0 <= i < |states[n].frames| && t in states[n].frames[i].gone ==> t in states[n].exited
  {
    RunInv(states, steps, n);
  }

  // --- a call that sees the flag announces everybody -----------------------------------

  /** The threads listed when the call took the list are in its hand, or have been told of. */
  ghost predicate Carried(st: State, who: set<Thread>) {
    if st.caller.Calling? && st.caller.stage.Swapped? then
      forall t :: t in who ==> t in st.caller.stage.gone
    else
      forall t :: t in who ==> Named(st.frames, t)
  }

  /** Some notice names the thread. */
  ghost predicate Named(frames: seq<Frame>, t: Thread) {
    exists i :: 0 <= i < |frames| && t in frames[i].gone
  }

  lemma CarriedStep(st: State, step: Step, who: set<Thread>)
    requires Enabled(st, step) && Carried(st, who) && st.caller.Calling? && st.caller.stage.Swapped?
    ensures Carried(Apply(st, step), who)
    ensures Apply(st, step).caller.Calling?
    ensures step == Announce || Apply(st, step).caller == st.caller
  {
    if step == Announce && st.caller.stage.gone != [] {
      var frames := Apply(st, step).frames;
      assert frames[|st.frames|].gone == st.caller.stage.gone;
    }
  }

  /**
    Once a call has taken the list, the notice it queues names every thread that was listed, but
    for the calling thread itself.
   */
  lemma {:induction false} ListIsAnnounced(states: seq<State>, steps: seq<Step>, n: nat, m: nat, t: Thread)
    requires IsRun(states, steps) && n < m < |steps| && steps[n] == Swap && steps[m] == Announce
    requires forall i :: n < i < m ==> steps[i] != Announce
    requires t in states[n].listed && states[n].caller.Calling? && t != states[n].caller.thread
    ensures Named(states[m + 1].frames, t)
  {
    assert Moves(states[n], steps[n], states[n + 1]);
    WithoutHolds(states[n].listed, states[n].caller.thread);
    StillInHand(states, steps, n + 1, m, t);
    assert Moves(states[m], steps[m], states[m + 1]);
    CarriedStep(states[m], steps[m], {t});
  }

  lemma {:induction false} StillInHand(states: seq<State>, steps: seq<Step>, n: nat, m: nat, t: Thread)
    requires IsRun(states, steps) && n <= m < |steps| && forall i :: n <= i < m ==> steps[i] != Announce
    requires states[n].caller.Calling? && states[n].caller.stage.Swapped? && t in states[n].caller.stage.gone
    ensures states[m].caller == states[n].caller
  {
    if n < m {
      StillInHand(states, steps, n, m - 1, t);
      assert Moves(states[m - 1], steps[m - 1], states[m]);
    }
  }

  // --- every call is queued once --------------------------------------------------------

  /** The threads whose calls are queued, in order: notices aside. */
  function CallsIn(frames: seq<Frame>): seq<Thread> {
    if frames == [] then []
    else
      var last := frames[|frames| - 1];
      CallsIn(frames[..|frames| - 1]) + if last.gone == [] then [last.thread] else []
  }

  /** The threads that began a call, in order. */
  function Callers(steps: seq<Step>): seq<Thread> {
    if steps == [] then []
    else
      var last := steps[|steps| - 1];
      Callers(steps[..|steps| - 1]) + if last.Begin? then [last.t] else []
  }

  /** Each call queues one frame of its own, in the order the calls were made. */
  lemma {:induction false} EveryCallQueued(states: seq<State>, steps: seq<Step>, n: nat)
    requires IsRun(states, steps) && n < |states|
    ensures var st, made := states[n], Callers(steps[..n]);
            if st.caller.Calling? && st.caller.stage != Queued then made == CallsIn(st.frames) + [st.caller.thread]
            else made == CallsIn(st.frames)
    ensures states[n].caller.Calling? && states[n].caller.stage == Queued ==>
      var calls := CallsIn(states[n].frames); calls != [] && calls[|calls| - 1] == states[n].caller.thread
  {
    if n > 0 {
      EveryCallQueued(states, steps, n - 1);
      assert Moves(states[n - 1], steps[n - 1], states[n]);
      assert steps[..n][..n - 1] == steps[..n - 1];
      QueuedStep(states[n - 1], steps[n - 1]);
    }
  }

  lemma QueuedStep(st: State, step: Step)
    requires Enabled(st, step)
    ensures CallsIn(Apply(st, step).frames) == CallsIn(st.frames) + if step == Queue then [st.caller.thread] else []
  {
    var frames := Apply(st, step).frames;
    if frames != st.frames {
      assert frames[..|st.frames|] == st.frames;
    }
  }

  /** A run in which a thread exits, and the next call of another announces it before its own frame. */
  lemma ExitIsTold(t: Thread, u: Thread) returns (states: seq<State>, steps: seq<Step>)
    requires t != u
    ensures IsRun(states, steps)
    ensures states[|steps|].frames == [Frame(u, [t]), Frame(u, [])] && states[|steps|].listed == []
  {
    steps := [Exit(t), Begin(u), Swap, Announce, Queue, Relist];
    var s1 := INIT.(listed := [t], haveListed := true, exited := {t});
    var s3 := INIT.(exited := {t}, caller := Calling(u, Swapped([t])));
    var s4 := s3.(frames := [Frame(u, [t])], caller := Calling(u, Announced));
    var s5 := s3.(frames := [Frame(u, [t]), Frame(u, [])], caller := Calling(u, Queued));
    states := [INIT, s1, s1.(caller := Calling(u, Begun)), s3, s4, s5, s5.(caller := NoCall)];
    WithoutOther(t, u);
    assert Moves(INIT, Exit(t), s1) && Moves(s1, Begin(u), states[2]);
    assert Moves(states[2], Swap, s3);
    assert Moves(s3, Announce, s4) && Moves(s4, Queue, s5) && Moves(s5, Relist, states[6]);
    hide Moves;
  }

  lemma WithoutOther(t: Thread, u: Thread)
    requires t != u
    ensures Without([t], u) == [t]
  {
    assert [t][..0] == [] && [] + [t] == [t];
  }

  /** A thread that calls after it has exited stays listed while its call takes the others off. */
  lemma SelfStaysListed(states: seq<State>, steps: seq<Step>, n: nat)
    requires IsRun(states, steps) && n < |steps| && steps[n] == Swap
    ensures states[n].caller.Calling?
    ensures states[n].caller.thread in states[n].listed <==> states[n].caller.thread in states[n + 1].listed
  {
    assert Moves(states[n], steps[n], states[n + 1]);
  }

  /** A call of a thread that has exited, during which another exits: both are listed after it, and it is queued. */
  lemma LateCallIsRelisted(t: Thread, u: Thread) returns (states: seq<State>, steps: seq<Step>)
    requires t != u
    ensures IsRun(states, steps)
    ensures states[|steps|].frames == [Frame(t, [])] && states[|steps|].caller == NoCall
    ensures states[|steps|].listed == [t, u]
  {
    steps := [Exit(t), Begin(t), Swap, Announce, Exit(u), Queue, Relist];
    var s1 := INIT.(listed := [t], haveListed := true, exited := {t});
    var s5 := s1.(listed := [t, u], exited := {t, u}, caller := Calling(t, Announced));
    var s6 := s5.(frames := [Frame(t, [])], caller := Calling(t, Queued));
    states := [INIT, s1, s1.(caller := Calling(t, Begun)), s1.(caller := Calling(t, Swapped([]))),
               s1.(caller := Calling(t, Announced)), s5, s6, s6.(caller := NoCall)];
    WithoutSelf(t);
    hide Without;
    assert [] + [t] == [t] && [t] + [u] == [t, u] && [] + [Frame(t, [])] == [Frame(t, [])];
    assert Moves(INIT, Exit(t), s1) && Moves(s1, Begin(t), states[2]) && Moves(states[2], Swap, states[3]);
    assert Moves(states[3], Announce, states[4]) && Moves(states[4], Exit(u), s5);
    assert Moves(s5, Queue, s6) && Moves(s6, Relist, states[7]);
    hide Moves;
  }

  lemma WithoutSelf(t: Thread)
    ensures Without([t], t) == []
  {
    assert [t][..0] == [];
  }

  /** A call that finds nobody listed only queues its own frame. */
  lemma PlainCall(u: Thread) returns (states: seq<State>, steps: seq<Step>)
    ensures IsRun(states, steps) && states[|steps|] == INIT.(frames := [Frame(u, [])])
  {
    steps := [Begin(u), Pass, Queue, Relist];
    var s3 := INIT.(frames := [Frame(u, [])], caller := Calling(u, Queued));
    states := [INIT, INIT.(caller := Calling(u, Begun)), INIT.(caller := Calling(u, Announced)), s3,
               INIT.(frames := [Frame(u, [])])];
    assert Moves(INIT, Begin(u), states[1]) && Moves(states[1], Pass, states[2]);
    assert Moves(states[2], Queue, s3) && Moves(s3, Relist, states[4]);
    hide Moves;
  }
}
