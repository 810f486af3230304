/**
  Which streams have work a synchronize would wait for (client/pending.cpp), and the synchronize
  that asks (client/shim.cpp).
 */
module Pending {
  // A CUstream; 0 is the default stream.
  type Stream = nat
  type Thread = nat

  /** The record kept: the streams named, and whether something ran on one that could not be. */
  datatype Record = Record(busy: set<Stream>, unplaced: bool)

  /** A piece of GPU work other than an upload, and whether the client could name its stream. */
  datatype Work = Work(serial: nat, stream: Stream, placed: bool)

  predicate NothingToWaitFor(r: Record, s: Stream) {
    !r.unplaced && if s == 0 then r.busy == {} else s !in r.busy
  }

  class PendingRecord {
    var busy: set<Stream>
    var unplaced: bool

    ghost function Value(): Record
      reads this
    {
      Record(busy, unplaced)
    }

    constructor ()
      ensures Value() == Record({}, false)
    {
      busy, unplaced := {}, false;
    }

    /** work_on and work_somewhere: the work is counted, on its stream or on all of them. */
    method Count(w: Work)
      modifies this
      ensures Value() == Counted(old(Value()), w)
    {
      if w.placed {
        busy := busy + {w.stream};
      } else {
        unplaced := true;
      }
    }

    method Settled(s: Stream)
      modifies this
      ensures Value() == SettledOn(old(Value()), s)
    {
      busy := busy - {s};
    }

    method SettledAll()
      modifies this
      ensures Value() == Record({}, false)
    {
      busy := {};
      unplaced := false;
    }

    /** nothing_to_wait_for: right about the default stream and about every other, if the record covers the work. */
    method Ask(s: Stream, ghost work: set<Work>) returns (nothing: bool)
      requires Covers(Value(), work)
      ensures nothing == NothingToWaitFor(Value(), s)
      ensures nothing ==> forall w :: w in work ==> s != 0 && w.stream != s
    {
      if unplaced {
        return false;
      }
      if s == 0 {
        return busy == {};
      }
      return s !in busy;
    }
  }

  function Counted(r: Record, w: Work): Record {
    if w.placed then r.(busy := r.busy + {w.stream}) else r.(unplaced := true)
  }

  function SettledOn(r: Record, s: Stream): Record {
    r.(busy := r.busy - {s})
  }

  /** Everything outstanding is counted somewhere. */
  ghost predicate Covers(r: Record, work: set<Work>) {
    forall w :: w in work ==> if w.placed then w.stream in r.busy else r.unplaced
  }

  /** Settling a stream keeps the record right exactly when nothing the client placed on it is outstanding. */
  lemma SettleExact(r: Record, work: set<Work>, s: Stream)
    requires Covers(r, work)
    ensures Covers(SettledOn(r, s), work) <==> forall w :: w in work && w.placed ==> w.stream != s
    ensures Covers(Record({}, false), work) <==> work == {}
  {
  }

  // --- threads launching, waiting and settling at once -----------------------

  /** What is waited for: one stream, or everything in the context. */
  datatype Target = One(stream: Stream) | Everything

  /** A wait that has returned and is about to be settled. `spoiled`: work was launched behind its back. */
  datatype Wait = Wait(target: Target, answered: bool, spoiled: bool)

  datatype State = State(
    record: Record,
    counted: set<Work>,       // counted, and not yet sent
    running: set<Work>,       // sent, and not finished
    waits: map<Thread, Wait>)

  const INIT := State(Record({}, false), {}, {}, map[])

  datatype Step =
    | CountWork(w: Work)
    | Launch(w: Work)
    | Finish(w: Work)
    | Answer(t: Thread, target: Target)   // the server says the wait is over
    | Fail(t: Thread, target: Target)     // the call failed with no answer
    | Settle(t: Thread)

  predicate Concerns(target: Target, w: Work) {
    target.One? ==> target.stream == w.stream
  }

  function Spoil(waits: map<Thread, Wait>, w: Work): map<Thread, Wait> {
    map t | t in waits :: if Concerns(waits[t].target, w) then waits[t].(spoiled := true) else waits[t]
  }

  predicate Enabled(st: State, step: Step) {
    match step
    case CountWork(w) => true
    case Launch(w) => w in st.counted
    case Finish(w) => w in st.running
    case Answer(t, target) => t !in st.waits && forall w | w in st.running :: !Concerns(target, w)
    case Fail(t, target) => t !in st.waits
    case Settle(t) => t in st.waits
  }

  function Apply(st: State, step: Step): State
    requires Enabled(st, step)
  {
    match step
    case CountWork(w) =>
      st.(record := Counted(st.record, w), counted := st.counted + {w}, waits := Spoil(st.waits, w))
    case Launch(w) =>
      st.(counted := st.counted - {w}, running := st.running + {w}, waits := Spoil(st.waits, w))
    case Finish(w) => st.(running := st.running - {w})
    case Answer(t, target) =>
      var underway := exists w | w in st.counted :: Concerns(target, w);
      st.(waits := st.waits[t := Wait(target, true, underway)])
    case Fail(t, target) => st.(waits := st.waits[t := Wait(target, false, false)])
    case Settle(t) =>
      var r := if st.waits[t].target.One? then SettledOn(st.record, st.waits[t].target.stream) else Record({}, false);
      st.(record := r, waits := st.waits - {t})
  }

  /** Each settle follows a wait the server answered, with nothing launched on that stream meanwhile. */
  predicate Fair(st: State, step: Step) {
    step.Settle? && step.t in st.waits ==> st.waits[step.t].answered && !st.waits[step.t].spoiled
  }

  ghost predicate Inv(st: State) {
    && Covers(st.record, st.counted + st.running)
    && forall t :: t in st.waits && st.waits[t].answered && !st.waits[t].spoiled ==>
         forall w :: w in st.counted + st.running ==> !Concerns(st.waits[t].target, w)
  }

  lemma StepKeeps(st: State, step: Step)
    requires Inv(st) && Enabled(st, step) && Fair(st, step)
    ensures Inv(Apply(st, step))
  {
  }

  ghost predicate IsRun(states: seq<State>, steps: seq<Step>) {
    && |states| == |steps| + 1
    && states[0] == INIT
    && forall i :: 0 <= i < |steps| ==> Moves(states[i], steps[i], states[i + 1])
  }

  ghost predicate Moves(st: State, step: Step, st': State) {
    Enabled(st, step) && Fair(st, step) && st' == Apply(st, step)
  }

  lemma {:induction false} RunInv(states: seq<State>, steps: seq<Step>, n: nat)
    requires IsRun(states, steps) && n < |states|
    ensures Inv(states[n])
  {
    if n > 0 {
      RunInv(states, steps, n - 1);
      assert Moves(states[n - 1], steps[n - 1], states[n]);
      StepKeeps(states[n - 1], steps[n - 1]);
    }
  }

  datatype SyncMode = Always | AfterUploads | Queued

  /** cuStreamSynchronize: whether it is queued and returns at once. */
  predicate ReturnsAtOnce(mode: SyncMode, r: Record, s: Stream) {
    mode == Queued || (mode == AfterUploads && NothingToWaitFor(r, s))
  }

  /**
    In every interleaving, a synchronize that does not wait has nothing to wait for: no work but
    uploads is outstanding on its stream or, for the default stream, on any.
   */
  lemma NoWaitIsSafe(states: seq<State>, steps: seq<Step>, n: nat, s: Stream)
    requires IsRun(states, steps) && n < |states| && ReturnsAtOnce(AfterUploads, states[n].record, s)
    ensures forall w :: w in states[n].counted + states[n].running ==> s != 0 && w.stream != s
  {
    RunInv(states, steps, n);
  }

  /** Work the client cannot place makes every synchronize wait until everything has been waited for. */
  lemma UnplacedBlocksAll(st: State, step: Step)
    requires Enabled(st, step) && st.record.unplaced
    ensures Apply(st, step).record.unplaced <==> !(step.Settle? && st.waits[step.t].target.Everything?)
    ensures forall s :: !NothingToWaitFor(st.record, s)
  {
  }

  /** A kernel launched between a wait's return and its settle is forgotten. */
  lemma LateLaunchIsForgotten(w: Work)
    requires w.placed
    ensures var a := Apply(INIT, Answer(0, One(w.stream)));
            var b := Apply(Apply(a, CountWork(w)), Launch(w));
            && Enabled(b, Settle(0)) && b.waits[0].answered && b.waits[0].spoiled
            && var c := Apply(b, Settle(0)); w in c.running && NothingToWaitFor(c.record, w.stream)
  {
  }

  /** A wait that failed is settled like one that was answered: what it waited for is forgotten. */
  lemma FailedWaitForgets(w: Work)
    requires w.placed
    ensures var a := Apply(Apply(INIT, CountWork(w)), Launch(w));
            var b := Apply(a, Fail(0, One(w.stream)));
            && Enabled(b, Settle(0)) && !b.waits[0].answered && !b.waits[0].spoiled
            && var c := Apply(b, Settle(0)); w in c.running && NothingToWaitFor(c.record, w.stream)
  {
  }

  // --- what the record says, told from what happened ---------------------------

  /** Any steps at all, fair or not. */
  ghost predicate IsTrace(states: seq<State>, steps: seq<Step>) {
    && |states| == |steps| + 1
    && states[0] == INIT
    && forall i :: 0 <= i < |steps| ==> Goes(states[i], steps[i], states[i + 1])
  }

  ghost predicate Goes(st: State, step: Step, st': State) {
    Enabled(st, step) && st' == Apply(st, step)
  }

  /** The step settles everything, or this stream. */
  predicate SettlesAll(st: State, step: Step) {
    step.Settle? && step.t in st.waits && st.waits[step.t].target == Everything
  }

  predicate SettlesOn(st: State, step: Step, s: Stream) {
    SettlesAll(st, step) || (step.Settle? && step.t in st.waits && st.waits[step.t].target == One(s))
  }

  predicate Places(step: Step, s: Stream) {
    step.CountWork? && step.w.placed && step.w.stream == s
  }

  predicate Unplaces(step: Step) {
    step.CountWork? && !step.w.placed
  }

  /** It happened before step `n`, and what undoes it has not happened since. */
  ghost predicate Since(on: nat -> bool, off: nat -> bool, n: nat) {
    exists i :: 0 <= i < n && on(i) && forall j :: i < j < n ==> !off(j)
  }

  lemma SinceNext(on: nat -> bool, off: nat -> bool, n: nat)
    ensures Since(on, off, n + 1) <==> on(n) || (Since(on, off, n) && !off(n))
  {
    if Since(on, off, n) && !off(n) {
      var i :| 0 <= i < n && on(i) && forall j :: i < j < n ==> !off(j);
      assert forall j :: i < j < n + 1 ==> !off(j);
    }
  }

  /** Work was placed on the stream, and the stream has not been settled since. */
  ghost predicate Unsettled(states: seq<State>, steps: seq<Step>, n: nat, s: Stream)
    requires |states| == |steps| + 1
  {
    Since(i => 0 <= i < |steps| && Places(steps[i], s), j => 0 <= j < |steps| && SettlesOn(states[j], steps[j], s), n)
  }

  ghost predicate UnsettledSomewhere(states: seq<State>, steps: seq<Step>, n: nat)
    requires |states| == |steps| + 1
  {
    Since(i => 0 <= i < |steps| && Unplaces(steps[i]), j => 0 <= j < |steps| && SettlesAll(states[j], steps[j]), n)
  }

  lemma BusyNext(states: seq<State>, steps: seq<Step>, n: nat, s: Stream)
    requires |states| == |steps| + 1 && n < |steps|
    ensures Unsettled(states, steps, n + 1, s) <==>
      Places(steps[n], s) || (Unsettled(states, steps, n, s) && !SettlesOn(states[n], steps[n], s))
    ensures UnsettledSomewhere(states, steps, n + 1) <==>
      Unplaces(steps[n]) || (UnsettledSomewhere(states, steps, n) && !SettlesAll(states[n], steps[n]))
  {
    hide Since;
    SinceNext(i => 0 <= i < |steps| && Places(steps[i], s),
              j => 0 <= j < |steps| && SettlesOn(states[j], steps[j], s), n);
    SinceNext(i => 0 <= i < |steps| && Unplaces(steps[i]), j => 0 <= j < |steps| && SettlesAll(states[j], steps[j]), n);
  }

  lemma RecordStep(st: State, step: Step)
    requires Enabled(st, step)
    ensures var r := Apply(st, step).record;
            && (forall s :: s in r.busy <==> Places(step, s) || (s in st.record.busy && !SettlesOn(st, step, s)))
            && (r.unplaced <==> Unplaces(step) || (st.record.unplaced && !SettlesAll(st, step)))
  {
  }

  /** The record is exactly the work counted and not settled since: on each stream, and somewhere. */
  lemma {:induction false} RecordIsHistory(states: seq<State>, steps: seq<Step>, n: nat)
    requires IsTrace(states, steps) && n < |states|
    ensures forall s :: s in states[n].record.busy <==> Unsettled(states, steps, n, s)
    ensures states[n].record.unplaced <==> UnsettledSomewhere(states, steps, n)
  {
    if n > 0 {
      RecordIsHistory(states, steps, n - 1);
      assert Goes(states[n - 1], steps[n - 1], states[n]);
      RecordStep(states[n - 1], steps[n - 1]);
      hide Apply, Unsettled, UnsettledSomewhere, Places, Unplaces, SettlesOn, SettlesAll;
      forall s ensures s in states[n].record.busy <==> Unsettled(states, steps, n, s) {
        BusyNext(states, steps, n - 1, s);
      }
      BusyNext(states, steps, n - 1, 0);
    }
  }

  /**
    Whether a synchronize waits: never where every one is queued, always where none is, and
    otherwise exactly if work was counted that it covers and that has not been settled since.
   */
  lemma WaitsExactly(states: seq<State>, steps: seq<Step>, n: nat, s: Stream)
    requires IsTrace(states, steps) && n < |states|
    ensures ReturnsAtOnce(Queued, states[n].record, s) && !ReturnsAtOnce(Always, states[n].record, s)
    ensures s != 0 ==>
      (ReturnsAtOnce(AfterUploads, states[n].record, s) <==>
         !UnsettledSomewhere(states, steps, n) && !Unsettled(states, steps, n, s))
    ensures ReturnsAtOnce(AfterUploads, states[n].record, 0) <==>
      !UnsettledSomewhere(states, steps, n) && forall x :: !Unsettled(states, steps, n, x)
  {
    RecordIsHistory(states, steps, n);
    hide Unsettled, UnsettledSomewhere;
  }

  /** The work counted and not yet sent, and the work sent and not finished, told from what happened. */
  ghost predicate ToSend(steps: seq<Step>, n: nat, w: Work) {
    Since(i => 0 <= i < |steps| && steps[i] == CountWork(w), j => 0 <= j < |steps| && steps[j] == Launch(w), n)
  }

  ghost predicate Underway(steps: seq<Step>, n: nat, w: Work) {
    Since(i => 0 <= i < |steps| && steps[i] == Launch(w), j => 0 <= j < |steps| && steps[j] == Finish(w), n)
  }

  lemma {:induction false} WorkIsHistory(states: seq<State>, steps: seq<Step>, n: nat, w: Work)
    requires IsTrace(states, steps) && n < |states|
    ensures w in states[n].counted <==> ToSend(steps, n, w)
    ensures w in states[n].running <==> Underway(steps, n, w)
  {
    if n > 0 {
      WorkIsHistory(states, steps, n - 1, w);
      assert Goes(states[n - 1], steps[n - 1], states[n]);
      hide Since;
      SinceNext(i => 0 <= i < |steps| && steps[i] == CountWork(w),
                j => 0 <= j < |steps| && steps[j] == Launch(w), n - 1);
      SinceNext(i => 0 <= i < |steps| && steps[i] == Launch(w), j => 0 <= j < |steps| && steps[j] == Finish(w), n - 1);
    }
  }

  /** The step is the return of the thread's wait, answered or not. */
  predicate Returns(step: Step, t: Thread) {
    (step.Answer? && step.t == t) || (step.Fail? && step.t == t)
  }

  /** Work the wait would have to cover is counted or sent. */
  predicate Disturbs(step: Step, target: Target) {
    (step.CountWork? || step.Launch?) && Concerns(target, step.w)
  }

  /** Something the wait would have to cover was underway at its return, or has come since. */
  ghost predicate SpoiledSince(states: seq<State>, steps: seq<Step>, i: nat, n: nat)
    requires |states| == |steps| + 1 && i < n <= |steps| && (steps[i].Answer? || steps[i].Fail?)
  {
    || (steps[i].Answer? && exists w :: w in states[i].counted && Concerns(steps[i].target, w))
    || exists j :: i < j < n && Disturbs(steps[j], steps[i].target)
  }

  /** A wait that returned and is not settled says what became of it, and whether it was disturbed. */
  lemma {:induction false} WaitIsHistory(states: seq<State>, steps: seq<Step>, i: nat, n: nat, t: Thread)
    requires IsTrace(states, steps) && i < n < |states| && Returns(steps[i], t)
    requires forall j :: i < j < n ==> steps[j] != Settle(t)
    ensures t in states[n].waits
    ensures var wait := states[n].waits[t];
            && wait.target == steps[i].target && (wait.answered <==> steps[i].Answer?)
            && (wait.spoiled <==> SpoiledSince(states, steps, i, n))
  {
    assert Goes(states[n - 1], steps[n - 1], states[n]);
    if i + 1 < n {
      WaitIsHistory(states, steps, i, n - 1, t);
      SpoiledNext(states, steps, i, n - 1);
    }
  }

  lemma SpoiledNext(states: seq<State>, steps: seq<Step>, i: nat, n: nat)
    requires |states| == |steps| + 1 && i < n < |steps| && (steps[i].Answer? || steps[i].Fail?)
    ensures SpoiledSince(states, steps, i, n + 1) <==>
      SpoiledSince(states, steps, i, n) || Disturbs(steps[n], steps[i].target)
  {
  }

  lemma SettledIsOver(st: State, t: Thread)
    requires Enabled(st, Settle(t))
    ensures t !in Apply(st, Settle(t)).waits
  {
  }

  /** A kernel is launched, finishes and is waited for, and the next synchronize of its stream returns at once. */
  lemma SynchronizeReturns(w: Work) returns (states: seq<State>, steps: seq<Step>)
    requires w.placed
    ensures IsRun(states, steps) && |steps| == 5 && steps[0] == CountWork(w) && steps[1] == Launch(w)
    ensures !ReturnsAtOnce(AfterUploads, states[2].record, w.stream)
    ensures ReturnsAtOnce(AfterUploads, states[|steps|].record, w.stream)
  {
    steps := [CountWork(w), Launch(w), Finish(w), Answer(0, One(w.stream)), Settle(0)];
    var busy := Record({w.stream}, false);
    var s1, s2 := State(busy, {w}, {}, map[]), State(busy, {}, {w}, map[]);
    var s3 := State(busy, {}, {}, map[]);
    states := [INIT, s1, s2, s3, s3.(waits := map[0 := Wait(One(w.stream), true, false)]), INIT];
    assert Moves(INIT, steps[0], s1) && Moves(s1, steps[1], s2) && Moves(s2, steps[2], s3);
    assert Moves(s3, steps[3], states[4]);
    assert Apply(states[4], Settle(0)).waits == map[];
    assert Moves(states[4], steps[4], INIT);
    hide Moves;
  }
}
