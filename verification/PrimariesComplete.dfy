/** Nothing a session made is left out of its record, and nothing rightly stamped outlives its expiry. */
module PrimariesComplete {
  import opened Primaries
  import opened PrimariesInvariant
  import opened PrimariesSteps
  import opened PrimariesTheorems

  /** The session has the object in its record, or is about to put it there. */
  predicate OnRecord(se: Session, obj: Obj) {
    && se.flight != Freed(obj.handle)
    && if se.flight.Made? && se.flight.handle == obj.handle then se.flight.obj == obj
       else obj.handle in se.entries && se.entries[obj.handle].obj == obj
  }

  /** What exists was made by a session, where its address says, in the incarnation there is. */
  ghost predicate ObjectOk(st: State, h: Handle)
    requires h in st.objects
  {
    var obj := st.objects[h];
    && obj.handle == h && obj.owner < |st.sessions| && obj.inc == At(st.inc, obj.dev)
    && (st.sessions[obj.owner].phase == Serving ==> OnRecord(st.sessions[obj.owner], obj))
    && (st.lock.Pending? && st.lock.died ==> obj.dev != st.lock.dev || obj.owner != st.lock.session)
  }

  ghost predicate Complete(st: State) {
    forall h :: h in st.objects ==> ObjectOk(st, h)
  }

  /** Session `s` alone changes: what is on its record and exists stays there. */
  ghost predicate RecordStays(st: State, s: nat, to: Session)
    requires s < |st.sessions|
  {
    to.phase == Serving ==>
      && st.sessions[s].phase == Serving
      && forall h :: h in st.objects && st.objects[h].owner == s && OnRecord(st.sessions[s], st.objects[h]) ==>
           OnRecord(to, st.objects[h])
  }

  lemma OwnStep(st: State, s: nat, to: Session)
    requires Complete(st) && s < |st.sessions| && RecordStays(st, s, to)
    ensures Complete(With(st, s, to))
  {
    hide OnRecord;
    forall h | h in st.objects ensures ObjectOk(With(st, s, to), h) {
      assert ObjectOk(st, h);
    }
  }

  lemma StampStep(st: State, step: Step)
    requires Complete(st) && Enabled(st, step)
    requires step.TakeStamp? || step.CopyStamp? || step.StampUnknown? || step.MakeFails?
    ensures Complete(Apply(st, step))
  {
    hide Complete;
    OwnStep(st, step.s, Apply(st, step).sessions[step.s]);
  }

  lemma NoteStep(st: State, s: nat)
    requires Complete(st) && Enabled(st, Note(s))
    ensures Complete(Apply(st, Note(s)))
  {
    hide Complete;
    OwnStep(st, s, Noted(st.sessions[s]));
  }

  lemma ForgetStep(st: State, s: nat)
    requires Complete(st) && Enabled(st, Forget(s))
    ensures Complete(Apply(st, Forget(s)))
  {
    hide Complete;
    OwnStep(st, s, Apply(st, Forget(s)).sessions[s]);
  }

  lemma MakeStep(st: State, s: nat, h: Handle)
    requires Inv(st) && Complete(st) && Enabled(st, Make(s, h))
    ensures Complete(Apply(st, Make(s, h)))
  {
    FlightNotBusy(st, s);
    hide Inv;
    var st' := Apply(st, Make(s, h));
    forall k | k in st'.objects ensures ObjectOk(st', k) {
      if k != h {
        assert ObjectOk(st, k);
      }
    }
  }

  lemma FreeStep(st: State, s: nat, h: Handle)
    requires Complete(st) && Enabled(st, Free(s, h))
    ensures Complete(Apply(st, Free(s, h)))
  {
    var st' := Apply(st, Free(s, h));
    forall k | k in st'.objects ensures ObjectOk(st', k) {
      assert ObjectOk(st, k);
    }
  }

  lemma RetainStep(st: State, s: nat, d: Dev)
    requires Complete(st) && Enabled(st, Retain(s, d))
    ensures Complete(Apply(st, Retain(s, d)))
  {
    var st' := Apply(st, Retain(s, d));
    forall k | k in st'.objects ensures ObjectOk(st', k) {
      assert ObjectOk(st, k);
    }
  }

  /** A context destroyed takes with it everything made there. */
  lemma DeathStep(st: State, st': State, d: Dev)
    requires Complete(st) && st.lock == Unlocked && st'.sessions == st.sessions
    requires st'.objects == st.objects && st'.inc == st.inc && st'.lock.Pending? && st'.lock.dev == d
    ensures Complete(Destroyed(st', d))
    ensures !st'.lock.died ==> Complete(st')
  {
    hide OnRecord;
    forall k | k in st'.objects ensures ObjectOk(st, k) {
    }
  }

  lemma ReleaseStep(st: State, s: nat, d: Dev)
    requires Complete(st) && st.lock == Unlocked && At(st.count, d) > 0
    ensures Complete(DriverRelease(st, s, d))
  {
    hide Complete, Destroyed;
    var left := At(st.count, d) - 1;
    DeathStep(st, st.(count := st.count[d := left], lock := Pending(s, d, true, left == 0)), d);
  }

  lemma ResetStep(st: State, s: nat, d: Dev)
    requires Complete(st) && st.lock == Unlocked
    ensures Complete(Destroyed(st.(lock := Pending(s, d, false, true)), d))
  {
    hide Complete, Destroyed;
    DeathStep(st, st.(lock := Pending(s, d, false, true)), d);
  }

  /** What the record loses at a death is gone. */
  lemma RecordStep(st: State)
    requires Inv(st) && Complete(st) && st.lock.Pending?
    ensures Complete(Recorded(st, st.lock.session, st.lock.dev, st.lock.release, st.lock.died))
  {
    var s, d, release, died := st.lock.session, st.lock.dev, st.lock.release, st.lock.died;
    assert s < |st.sessions|;
    DevicesMatch(st, s);
    hide Inv;
    var st' := Recorded(st, s, d, release, died);
    hide Recorded;
    forall k | k in st'.objects ensures ObjectOk(st', k) {
      RecordedOne(st, k);
    }
  }

  lemma RecordedOne(st: State, k: Handle)
    requires Complete(st) && st.lock.Pending? && st.lock.session < |st.sessions|
    requires forall h :: h in st.sessions[st.lock.session].entries ==>
      st.sessions[st.lock.session].entries[h].st.dev == st.sessions[st.lock.session].entries[h].obj.dev
    ensures var st' := Recorded(st, st.lock.session, st.lock.dev, st.lock.release, st.lock.died);
            st'.objects == st.objects && (k in st.objects ==> ObjectOk(st', k))
  {
    var s, d, release, died := st.lock.session, st.lock.dev, st.lock.release, st.lock.died;
    var se, st' := st.sessions[s], Recorded(st, s, d, release, died);
    PhaseStays(se, d, release, died, At(st'.gen, d));
    if k in st.objects {
      assert ObjectOk(st, k);
      if st.objects[k].owner == s && se.phase == Serving {
        StillRecorded(se, st.objects[k], d, release, died, At(st'.gen, d));
      }
    }
    hide AfterRecord, OnRecord, Complete;
  }

  lemma DevicesMatch(st: State, s: nat)
    requires Inv(st) && s < |st.sessions|
    ensures forall h :: h in st.sessions[s].entries ==>
      st.sessions[s].entries[h].st.dev == st.sessions[s].entries[h].obj.dev
  {
    forall h | h in st.sessions[s].entries
      ensures st.sessions[s].entries[h].st.dev == st.sessions[s].entries[h].obj.dev
    {
      SessionFacts(st, s, h);
    }
  }

  /** Recording a release or a death moves no session on, and takes no entry from one that is expiring. */
  lemma PhaseStays(se: Session, d: Dev, release: bool, died: bool, now: nat)
    ensures AfterRecord(se, d, release, died, now).phase == se.phase
    ensures se.phase == Expiring ==> AfterRecord(se, d, release, died, now).entries == se.entries
  {
  }

  /** What was not on the device that died stays on record. */
  lemma StillRecorded(se: Session, obj: Obj, d: Dev, release: bool, died: bool, now: nat)
    requires OnRecord(se, obj) && (!died || obj.dev != d)
    requires obj.handle in se.entries ==> se.entries[obj.handle].st.dev == se.entries[obj.handle].obj.dev
    ensures OnRecord(AfterRecord(se, d, release, died, now), obj)
  {
  }

  lemma ExpireEntryStep(st: State, s: nat, h: Handle)
    requires Complete(st) && s < |st.sessions| && st.sessions[s].phase == Expiring && h in st.sessions[s].entries
    ensures Complete(Expired(st, s, h))
  {
    var st' := Expired(st, s, h);
    hide StillCurrent;
    forall k | k in st'.objects ensures ObjectOk(st', k) {
      assert ObjectOk(st, k);
    }
  }

  lemma PhaseStep(st: State, step: Step)
    requires Complete(st) && Enabled(st, step) && (step.Expire? || step.Unbind?)
    ensures Complete(Apply(st, step))
  {
    hide Complete;
    OwnStep(st, step.s, Apply(st, step).sessions[step.s]);
  }

  lemma RefusedStep(st: State, s: nat, d: Dev)
    requires Complete(st) && s < |st.sessions| && st.sessions[s].phase == Expiring
    ensures Complete(ReleaseRefused(st, s, d))
  {
    var st' := ReleaseRefused(st, s, d);
    forall k | k in st'.objects ensures ObjectOk(st', k) {
      assert ObjectOk(st, k);
    }
  }

  lemma BindStep(st: State)
    requires Complete(st)
    ensures Complete(st.(sessions := st.sessions + [NEW_SESSION]))
  {
    hide OnRecord;
    var st' := st.(sessions := st.sessions + [NEW_SESSION]);
    forall k | k in st'.objects ensures ObjectOk(st', k) {
      assert ObjectOk(st, k);
    }
  }

  lemma StepCompletes(st: State, step: Step)
    requires Inv(st) && Complete(st) && Enabled(st, step) && Readable(step)
    ensures Complete(Apply(st, step))
  {
    hide Inv, Complete, With, Noted, Making, Retained, Recorded, Destroyed, DriverRelease, Expired, ReleaseRefused;
    match step
    case Bind => BindStep(st);
    case TakeStamp(_, _) => StampStep(st, step);
    case CopyStamp(_, _) => StampStep(st, step);
    case StampUnknown(_, _) => StampStep(st, step);
    case MakeFails(_) => StampStep(st, step);
    case Make(s, h) => MakeStep(st, s, h);
    case Note(s) => NoteStep(st, s);
    case Free(s, h) => FreeStep(st, s, h);
    case Forget(s) => ForgetStep(st, s);
    case Retain(s, d) => RetainStep(st, s, d);
    case Release(s, d) => ReleaseStep(st, s, d);
    case Reset(s, d) => ResetStep(st, s, d);
    case Record(_) => RecordStep(st);
    case Expire(_) => PhaseStep(st, step);
    case Unbind(_) => PhaseStep(st, step);
    case ExpireEntry(s, h) => ExpireEntryStep(st, s, h);
    case ExpireRelease(s, d) => if At(st.count, d) > 0 { ReleaseStep(st, s, d); } else { RefusedStep(st, s, d); }
  }

  lemma {:induction false} RunComplete(states: seq<State>, steps: seq<Step>, n: nat)
    requires IsRun(states, steps) && n < |states|
    ensures Complete(states[n])
  {
    hide Inv, Enabled, Apply;
    if n > 0 {
      RunComplete(states, steps, n - 1);
      RunInv(states, steps, n - 1);
      assert Moves(states[n - 1], steps[n - 1], states[n]);
      StepCompletes(states[n - 1], steps[n - 1]);
    }
  }

  /** While a session serves, everything it made that still exists is on its record. */
  lemma NothingOffRecord(states: seq<State>, steps: seq<Step>, n: nat, h: Handle)
    requires IsRun(states, steps) && n < |states| && h in states[n].objects
    ensures var obj := states[n].objects[h];
            && obj.handle == h && obj.owner < |states[n].sessions| && obj.inc == At(states[n].inc, obj.dev)
            && (states[n].sessions[obj.owner].phase == Serving ==> OnRecord(states[n].sessions[obj.owner], obj))
  {
    RunComplete(states, steps, n);
    assert ObjectOk(states[n], h);
  }

  /** The generation on it is not the incarnation it was made in. */
  predicate Misstamped(e: Entry) {
    e.st.gen == ENDED || e.st.gen != e.obj.inc
  }

  /** Expiry came to the object's entry and passed over it, because its stamp was not the current one. */
  ghost predicate PassedOver(st: State, step: Step, obj: Obj) {
    && step == ExpireEntry(obj.owner, obj.handle) && obj.owner < |st.sessions|
    && obj.handle in st.sessions[obj.owner].entries
    && st.sessions[obj.owner].entries[obj.handle].obj == obj
    && !StillCurrent(st.gen, st.sessions[obj.owner].entries[obj.handle].st)
    && Misstamped(st.sessions[obj.owner].entries[obj.handle])
  }

  predicate InEntries(se: Session, obj: Obj) {
    obj.handle in se.entries && se.entries[obj.handle].obj == obj
  }

  /** Nothing comes to exist but by being made. */
  lemma OnlyMade(st: State, step: Step, h: Handle)
    requires Enabled(st, step) && h in Apply(st, step).objects && !step.Make?
    ensures h in st.objects && Apply(st, step).objects[h] == st.objects[h]
  {
  }

  lemma RestingIsIdle(st: State, s: nat)
    requires Inv(st)
    ensures s < |st.sessions| && st.sessions[s].phase != Serving ==> st.sessions[s].flight == Idle
  {
    if s < |st.sessions| {
      assert SessionOk(s, st.sessions[s], st.gen, st.inc, st.count, st.objects);
    }
  }

  /** The record of a session that is not serving changes only entry by entry. */
  lemma RecordKept(st: State, step: Step, s: nat)
    requires Enabled(st, step) && s < |Apply(st, step).sessions| && Apply(st, step).sessions[s].phase != Serving
    requires !(step.ExpireEntry? && step.s == s) && LockOk(st.sessions, st.lock)
    requires s < |st.sessions| && st.sessions[s].phase != Serving ==> st.sessions[s].flight == Idle
    ensures s < |st.sessions| && Apply(st, step).sessions[s].entries == st.sessions[s].entries
    ensures st.sessions[s].phase == Serving ==> st.sessions[s].flight == Idle
    ensures Apply(st, step).sessions[s].phase == Gone ==> st.sessions[s].phase == Gone || step == Unbind(s)
  {
    hide Recorded, Making, ReleaseRefused, Expired;
    if step.Record? {
      RecordedKept(st, step, s);
    } else if step.Make? || step.ExpireRelease? || step.ExpireEntry? {
      MadeOrReleasedKept(st, step, s);
    }
  }

  lemma MadeOrReleasedKept(st: State, step: Step, s: nat)
    requires Enabled(st, step) && (step.Make? || step.ExpireRelease? || step.ExpireEntry?)
    requires s < |Apply(st, step).sessions| && Apply(st, step).sessions[s].phase != Serving
    requires !(step.ExpireEntry? && step.s == s)
    requires s < |st.sessions| && st.sessions[s].phase != Serving ==> st.sessions[s].flight == Idle
    ensures s < |st.sessions| && Apply(st, step).sessions[s].entries == st.sessions[s].entries
    ensures Apply(st, step).sessions[s].phase == st.sessions[s].phase
  {
  }

  lemma RecordedKept(st: State, step: Step, s: nat)
    requires Enabled(st, step) && step.Record?
    requires s < |Apply(st, step).sessions| && Apply(st, step).sessions[s].phase != Serving
    requires LockOk(st.sessions, st.lock)
    requires s < |st.sessions| && st.sessions[s].phase != Serving ==> st.sessions[s].flight == Idle
    ensures s < |st.sessions| && Apply(st, step).sessions[s].entries == st.sessions[s].entries
    ensures Apply(st, step).sessions[s].phase == st.sessions[s].phase
  {
    var s' := st.lock.session;
    PhaseStays(st.sessions[s'], st.lock.dev, st.lock.release, st.lock.died && (step.readable || !st.lock.release),
               At(Apply(st, step).gen, st.lock.dev));
    hide AfterRecord;
  }

  /** Expiry passes over an entry of something that exists exactly if its stamp is not of the object's incarnation. */
  lemma PassedOverEntry(st: State, s: nat, h: Handle)
    requires Inv(st) && Complete(st) && s < |st.sessions| && st.lock == Unlocked && h in st.sessions[s].entries
    requires h in st.objects && InEntries(st.sessions[s], st.objects[h]) && st.objects[h].owner == s
    ensures h in Expired(st, s, h).objects <==> Misstamped(st.sessions[s].entries[h])
    ensures h in Expired(st, s, h).objects ==> PassedOver(st, ExpireEntry(s, h), st.objects[h])
  {
    CurrentIsWellStamped(st, s, h);
    assert ObjectOk(st, h);
    hide Inv, Complete, ObjectOk, Misstamped, StillCurrent;
  }

  lemma CurrentIsWellStamped(st: State, s: nat, h: Handle)
    requires Inv(st) && Complete(st) && s < |st.sessions| && st.lock == Unlocked && h in st.sessions[s].entries
    requires h in st.objects && InEntries(st.sessions[s], st.objects[h])
    ensures StillCurrent(st.gen, st.sessions[s].entries[h].st) <==> !Misstamped(st.sessions[s].entries[h])
  {
    var e := st.sessions[s].entries[h];
    assert ObjectOk(st, h);
    assert At(st.inc, e.st.dev) == At(st.gen, e.st.dev);
    hide ObjectOk, Conserved, LockOk, GenOk;
    assert SessionOk(s, st.sessions[s], st.gen, st.inc, st.count, st.objects);
    assert EntryOk(s, h, e, st.sessions[s].flight == Freed(h), st.gen, st.inc, st.count, st.objects);
  }

  /** Left over from a session that no longer serves, and not on its record. */
  ghost predicate LeftBehind(st: State, obj: Obj) {
    && obj.handle in st.objects && st.objects[obj.handle] == obj
    && obj.owner < |st.sessions| && st.sessions[obj.owner].phase != Serving && !InEntries(st.sessions[obj.owner], obj)
  }

  lemma OnlyPassedOver(st: State, step: Step, obj: Obj)
    requires Inv(st) && Complete(st) && Enabled(st, step) && LeftBehind(Apply(st, step), obj)
    ensures PassedOver(st, step, obj) || LeftBehind(st, obj)
  {
    var s, h := obj.owner, obj.handle;
    if step.Make? {
      MadeByServing(st, step.s, step.h, obj);
    } else if step.ExpireEntry? && step.s == s {
      OnlyMade(st, step, h);
      if InEntries(st.sessions[s], obj) && step.h == h {
        PassedOverEntry(st, s, h);
      } else {
        OtherEntry(st, step, obj);
      }
    } else {
      OnlyMade(st, step, h);
      assert ObjectOk(st, h);
      RestingIsIdle(st, s);
      hide SessionOk, AllOk, Conserved, GenOk;
      RecordKept(st, step, s);
      hide Apply;
    }
  }

  lemma OtherEntry(st: State, step: Step, obj: Obj)
    requires Enabled(st, step) && step.ExpireEntry? && step.s == obj.owner && LeftBehind(Apply(st, step), obj)
    requires !(InEntries(st.sessions[obj.owner], obj) && step.h == obj.handle)
    ensures LeftBehind(st, obj)
  {
  }

  lemma MadeByServing(st: State, s: nat, h: Handle, obj: Obj)
    requires Inv(st) && Enabled(st, Make(s, h)) && LeftBehind(Apply(st, Make(s, h)), obj)
    ensures LeftBehind(st, obj)
  {
    FlightNotBusy(st, s);
    hide Inv;
  }

  /**
    What a session leaves behind when it has expired was stamped with a generation that is not the
    incarnation it was made in: expiry came to it and passed over it. Everything else is gone.
   */
  lemma {:induction false} OnlyMisstampedStays(states: seq<State>, steps: seq<Step>, n: nat, obj: Obj) returns (m: nat)
    requires IsRun(states, steps) && n < |states| && LeftBehind(states[n], obj)
    ensures m < n && PassedOver(states[m], steps[m], obj)
  {
    hide Inv, Complete, Enabled, Apply, PassedOver;
    if n == 0 {
      assert false;
    } else {
      RunInv(states, steps, n - 1);
      RunComplete(states, steps, n - 1);
      assert Moves(states[n - 1], steps[n - 1], states[n]);
      OnlyPassedOver(states[n - 1], steps[n - 1], obj);
      if PassedOver(states[n - 1], steps[n - 1], obj) {
        m := n - 1;
      } else {
        m := OnlyMisstampedStays(states, steps, n - 1, obj);
      }
    }
  }

  /** A session that is gone has nothing on record, so all it leaves was passed over. */
  lemma GoneLeavesOnlyMisstamped(states: seq<State>, steps: seq<Step>, n: nat, h: Handle) returns (m: nat)
    requires IsRun(states, steps) && n < |states| && h in states[n].objects
    requires states[n].objects[h].owner < |states[n].sessions|
    requires states[n].sessions[states[n].objects[h].owner].phase == Gone
    ensures m < n && PassedOver(states[m], steps[m], states[n].objects[h])
  {
    hide PassedOver;
    NothingOffRecord(states, steps, n, h);
    GoneHasNoRecord(states, steps, n, states[n].objects[h].owner);
    m := OnlyMisstampedStays(states, steps, n, states[n].objects[h]);
  }

  lemma {:induction false} GoneHasNoRecord(states: seq<State>, steps: seq<Step>, n: nat, s: nat)
    requires IsRun(states, steps) && n < |states| && s < |states[n].sessions| && states[n].sessions[s].phase == Gone
    ensures states[n].sessions[s].entries == map[]
  {
    if n > 0 {
      assert Moves(states[n - 1], steps[n - 1], states[n]);
      RunInv(states, steps, n - 1);
      GoneStep(states[n - 1], steps[n - 1], s);
      if s < |states[n - 1].sessions| && states[n - 1].sessions[s].phase == Gone {
        GoneHasNoRecord(states, steps, n - 1, s);
      }
    }
  }

  lemma GoneStep(st: State, step: Step, s: nat)
    requires Inv(st) && Enabled(st, step) && s < |Apply(st, step).sessions|
    requires Apply(st, step).sessions[s].phase == Gone
    ensures s < |st.sessions| && Apply(st, step).sessions[s].entries == st.sessions[s].entries
    ensures st.sessions[s].phase != Gone ==> st.sessions[s].entries == map[]
  {
    RestingIsIdle(st, s);
    hide SessionOk, AllOk, Conserved, GenOk;
    if step.ExpireEntry? && step.s == s {
      ExpiredIsNotGone(st, s, step.h);
      hide Expired;
    } else {
      RecordKept(st, step, s);
      hide Apply;
    }
  }

  lemma ExpiredIsNotGone(st: State, s: nat, h: Handle)
    requires s < |st.sessions| && h in st.sessions[s].entries
    ensures s < |Expired(st, s, h).sessions| && Expired(st, s, h).sessions[s].phase == st.sessions[s].phase
  {
  }

  // --- a reset touches nobody else -----------------------------------------------------

  lemma {:induction false} BoundCounts(sessions: seq<Session>, i: nat, j: nat)
    requires i < |sessions| && j < |sessions| && sessions[i].phase != Gone
    ensures Bound(sessions) >= 1
    ensures i != j && sessions[j].phase != Gone ==> Bound(sessions) >= 2
  {
    var n := |sessions| - 1;
    if i < n {
      BoundCounts(sessions[..n], i, if j < n then j else i);
    } else if j < n && sessions[j].phase != Gone {
      BoundCounts(sessions[..n], j, j);
    }
  }

  /** A reset is let through only when no other session is bound, so it destroys nothing of theirs. */
  lemma ResetIsAlone(states: seq<State>, steps: seq<Step>, n: nat, s: nat, d: Dev, i: nat)
    requires IsRun(states, steps) && n < |steps| && steps[n] == Reset(s, d) && i < |states[n].sessions| && i != s
    ensures states[n].sessions[i].phase == Gone
  {
    assert Moves(states[n], steps[n], states[n + 1]);
    if states[n].sessions[i].phase != Gone {
      BoundCounts(states[n].sessions, s, i);
      assert false;
    }
  }

  lemma {:induction false} BoundAlone(sessions: seq<Session>, s: nat)
    requires s <= |sessions| && forall i :: 0 <= i < |sessions| && i != s ==> sessions[i].phase == Gone
    ensures Bound(sessions) <= 1
    ensures s == |sessions| ==> Bound(sessions) == 0
  {
    if sessions != [] {
      var n := |sessions| - 1;
      BoundAlone(sessions[..n], if s < n then s else n);
    }
  }

  /** A serving session may reset a device, with nobody in the middle of such a call, exactly if it is alone. */
  lemma ResetIfAlone(st: State, s: nat, d: Dev)
    requires IsLive(st, s) && st.lock == Unlocked
    ensures Enabled(st, Reset(s, d)) <==> forall i :: 0 <= i < |st.sessions| && i != s ==> st.sessions[i].phase == Gone
  {
    if forall i :: 0 <= i < |st.sessions| && i != s ==> st.sessions[i].phase == Gone {
      BoundAlone(st.sessions, s);
    } else {
      var i :| 0 <= i < |st.sessions| && i != s && st.sessions[i].phase != Gone;
      BoundCounts(st.sessions, s, i);
    }
  }

  // --- what the record forgets at a death -----------------------------------------------

  /** Recording the death of a device's context drops the caller's entries there, and no others. */
  lemma DeathIsForgotten(states: seq<State>, steps: seq<Step>, n: nat)
    requires IsRun(states, steps) && n < |steps| && steps[n].Record?
    requires states[n].lock.Pending? && states[n].lock.died && At(states[n].gen, states[n].lock.dev) + 1 != ENDED
    requires states[n].lock.session < |states[n].sessions|
    requires states[n].sessions[states[n].lock.session].phase == Serving
    ensures states[n].lock.session < |states[n + 1].sessions|
    ensures var s, d := states[n].lock.session, states[n].lock.dev;
            var before, after := states[n].sessions[s].entries, states[n + 1].sessions[s].entries;
            && (forall h :: h in after <==> h in before && before[h].st.dev != d)
            && forall h :: h in after ==> after[h] == before[h]
  {
    RunInv(states, steps, n);
    assert Moves(states[n], steps[n], states[n + 1]);
    var st, s, d := states[n], states[n].lock.session, states[n].lock.dev;
    assert SessionOk(s, st.sessions[s], st.gen, st.inc, st.count, st.objects);
    forall h | h in st.sessions[s].entries && st.sessions[s].entries[h].st.dev == d
      ensures st.sessions[s].entries[h].st.gen != At(st.gen, d) + 1
    {
      assert EntryOk(s, h, st.sessions[s].entries[h], st.sessions[s].flight == Freed(h), st.gen, st.inc, st.count,
                     st.objects);
    }
    hide Inv, SessionOk;
  }
}
