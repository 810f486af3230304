/** Every step keeps the invariant. */
module PrimariesSteps {
  import opened Primaries
  import opened PrimariesInvariant

  /** A step inside one session that changes neither its retains nor any shared table. */
  lemma PrivateStep(st: State, s: nat, se: Session)
    requires Inv(st) && s < |st.sessions| && !Busy(st.lock, s)
    requires se.retains == st.sessions[s].retains
    requires SessionOk(s, se, st.gen, st.inc, st.count, st.objects)
    ensures Inv(With(st, s, se))
  {
    hide SessionOk;
    OneSteps(st.sessions, s, se, st.gen, st.inc, st.count, st.objects, st.gen, st.inc, st.count, st.objects);
    SumSame(st.sessions, s, se);
  }

  /** A thread inside a driver call that makes or frees something does not hold the lock. */
  lemma FlightNotBusy(st: State, s: nat)
    requires Inv(st) && s < |st.sessions| && st.sessions[s].flight != Idle
    ensures !Busy(st.lock, s) && st.sessions[s].phase == Serving
  {
    assert SessionOk(s, st.sessions[s], st.gen, st.inc, st.count, st.objects);
  }

  lemma BindKeeps(st: State)
    requires Inv(st)
    ensures Inv(st.(sessions := st.sessions + [NEW_SESSION]))
  {
    hide SessionOk, Sum, GenOk;
    NewOk(|st.sessions|, st.gen, st.inc, st.count, st.objects);
    SumNew(st.sessions);
  }

  lemma NewOk(i: nat, gen: map<Dev, nat>, inc: map<Dev, nat>, count: map<Dev, nat>, objects: map<Handle, Obj>)
    ensures SessionOk(i, NEW_SESSION, gen, inc, count, objects)
  {
  }

  lemma SumNew(sessions: seq<Session>)
    ensures forall d :: Sum(sessions + [NEW_SESSION], d) == Sum(sessions, d)
  {
    assert (sessions + [NEW_SESSION])[..|sessions|] == sessions;
  }

  lemma StampKeeps(st: State, s: nat, stamp: Stamp)
    requires Inv(st) && IsLive(st, s) && !Busy(st.lock, s)
    requires stamp.gen == ENDED || stamp.gen <= At(st.gen, stamp.dev)
    ensures Inv(With(st, s, st.sessions[s].(flight := Stamped(stamp))))
  {
    var se, to := st.sessions[s], st.sessions[s].(flight := Stamped(stamp));
    assert SessionOk(s, to, st.gen, st.inc, st.count, st.objects) by {
      assert SessionOk(s, se, st.gen, st.inc, st.count, st.objects);
      SameEntries(s, se, to, st.gen, st.inc, st.count, st.objects);
    }
    hide SessionOk;
    PrivateStep(st, s, to);
  }

  lemma SameEntries(i: nat, se: Session, to: Session, gen: map<Dev, nat>, inc: map<Dev, nat>,
                    count: map<Dev, nat>, objects: map<Handle, Obj>)
    requires EntriesOk(i, se, gen, inc, count, objects)
    requires forall h :: h in to.entries ==> h in se.entries && to.entries[h] == se.entries[h]
    requires forall h :: h in to.entries && se.flight == Freed(h) ==> to.flight == Freed(h)
    ensures EntriesOk(i, to, gen, inc, count, objects)
  {
    hide EntryOk;
    forall h | h in to.entries ensures EntryOk(i, h, to.entries[h], to.flight == Freed(h), gen, inc, count, objects) {
      assert EntryOk(i, h, se.entries[h], se.flight == Freed(h), gen, inc, count, objects);
      if se.flight != Freed(h) && to.flight == Freed(h) {
        FreedIsWeaker(i, h, se.entries[h], gen, inc, count, objects);
      }
    }
  }

  lemma FreedIsWeaker(i: nat, h: Handle, e: Entry, gen: map<Dev, nat>, inc: map<Dev, nat>,
                      count: map<Dev, nat>, objects: map<Handle, Obj>)
    requires EntryOk(i, h, e, false, gen, inc, count, objects)
    ensures EntryOk(i, h, e, true, gen, inc, count, objects)
  {
  }

  /** A copied stamp names a generation the device has reached. */
  lemma CopiedStamp(st: State, s: nat, h: Handle)
    requires Inv(st) && IsLive(st, s) && h in st.sessions[s].entries
    ensures var stamp := st.sessions[s].entries[h].st; stamp.gen == ENDED || stamp.gen <= At(st.gen, stamp.dev)
  {
    assert SessionOk(s, st.sessions[s], st.gen, st.inc, st.count, st.objects);
  }

  /** Dropping entries, or landing without an object, is private to the session. */
  lemma LandKeeps(st: State, s: nat, gone: set<Handle>)
    requires Inv(st) && s < |st.sessions| && !Busy(st.lock, s)
    requires forall h :: st.sessions[s].flight == Freed(h) ==> h in gone
    ensures Inv(With(st, s, st.sessions[s].(flight := Idle, entries := st.sessions[s].entries - gone)))
  {
    var se := st.sessions[s];
    var to := se.(flight := Idle, entries := se.entries - gone);
    assert SessionOk(s, to, st.gen, st.inc, st.count, st.objects) by {
      assert SessionOk(s, se, st.gen, st.inc, st.count, st.objects);
      SameEntries(s, se, to, st.gen, st.inc, st.count, st.objects);
    }
    hide SessionOk;
    PrivateStep(st, s, to);
  }

  lemma NoteKeeps(st: State, s: nat)
    requires Inv(st) && s < |st.sessions| && st.sessions[s].flight.Made?
    ensures Inv(With(st, s, Noted(st.sessions[s])))
  {
    FlightNotBusy(st, s);
    var se, to := st.sessions[s], Noted(st.sessions[s]);
    assert SessionOk(s, to, st.gen, st.inc, st.count, st.objects) by {
      assert SessionOk(s, se, st.gen, st.inc, st.count, st.objects);
      NotedOk(s, se, st.gen, st.inc, st.count, st.objects);
    }
    hide SessionOk, Noted;
    PrivateStep(st, s, to);
  }

  lemma NotedOk(s: nat, se: Session, gen: map<Dev, nat>, inc: map<Dev, nat>,
                count: map<Dev, nat>, objects: map<Handle, Obj>)
    requires SessionOk(s, se, gen, inc, count, objects) && se.flight.Made?
    ensures SessionOk(s, Noted(se), gen, inc, count, objects) && Noted(se).retains == se.retains
  {
    hide EntryOk;
    var to := Noted(se);
    forall h | h in to.entries ensures EntryOk(s, h, to.entries[h], false, gen, inc, count, objects) {
      assert h != se.flight.handle ==> EntryOk(s, h, se.entries[h], false, gen, inc, count, objects);
    }
  }

  /** One session and the shared tables change together. */
  lemma SharedStep(st: State, st': State, s: nat, to: Session)
    requires Inv(st) && s < |st.sessions| && st'.sessions == st.sessions[s := to]
    requires GenOk(st'.gen, st'.inc, st'.lock) && forall d :: At(st.gen, d) <= At(st'.gen, d)
    requires Gentle(st.inc, st.count, st.objects, st'.inc, st'.count, st'.objects, s)
    requires SessionOk(s, to, st'.gen, st'.inc, st'.count, st'.objects)
    requires LockOk(st'.sessions, st'.lock) && Conserved(st'.sessions, st'.lock, st'.count, st'.over)
    ensures Inv(st')
  {
    hide SessionOk, Gentle, GenOk, LockOk, Conserved, AllOk;
    OneSteps(st.sessions, s, to, st.gen, st.inc, st.count, st.objects, st'.gen, st'.inc, st'.count, st'.objects);
  }

  /** The object is new, so nothing current stood at its address, and its incarnation is at least the stamp's. */
  lemma MadeOk(s: nat, se: Session, h: Handle, obj: Obj, gen: map<Dev, nat>, inc: map<Dev, nat>,
               count: map<Dev, nat>, objects: map<Handle, Obj>)
    requires SessionOk(s, se, gen, inc, count, objects) && se.flight.Stamped? && h !in objects
    requires obj.owner == s && obj.handle == h && obj.dev == se.flight.st.dev && obj.inc == At(inc, obj.dev)
    requires At(count, obj.dev) > 0 && At(gen, obj.dev) <= At(inc, obj.dev)
    ensures SessionOk(s, se.(flight := Made(se.flight.st, h, obj)), gen, inc, count, objects[h := obj])
  {
    forall k | k in se.entries ensures EntryOk(s, k, se.entries[k], false, gen, inc, count, objects[h := obj]) {
      assert EntryOk(s, k, se.entries[k], false, gen, inc, count, objects);
    }
  }

  lemma MakeKeeps(st: State, s: nat, h: Handle)
    requires Inv(st) && s < |st.sessions| && st.sessions[s].flight.Stamped?
    requires At(st.count, st.sessions[s].flight.st.dev) > 0 && h !in st.objects
    ensures Inv(Making(st, s, st.sessions[s].flight.st, h))
  {
    FlightNotBusy(st, s);
    var se, stamp := st.sessions[s], st.sessions[s].flight.st;
    var obj := Obj(s, h, stamp.dev, At(st.inc, stamp.dev), st.made + 1);
    var to, st' := se.(flight := Made(stamp, h, obj)), Making(st, s, stamp, h);
    hide SessionOk;
    MadeOk(s, se, h, obj, st.gen, st.inc, st.count, st.objects);
    SumSame(st.sessions, s, to);
    SharedStep(st, st', s, to);
  }

  /** The session has something at the address, or is about to record it, and its context is alive. */
  predicate Claims(se: Session, h: Handle, inc: map<Dev, nat>) {
    || (h in se.entries && se.flight != Freed(h) && se.entries[h].obj.inc == At(inc, se.entries[h].st.dev))
    || (se.flight.Made? && se.flight.handle == h && se.flight.obj.inc == At(inc, se.flight.st.dev))
  }

  /** A client frees nothing that another session has. */
  predicate FreesOwn(st: State, step: Step) {
    step.Free? ==> forall i :: 0 <= i < |st.sessions| && i != step.s ==> !Claims(st.sessions[i], step.h, st.inc)
  }

  lemma UnclaimedStays(i: nat, se: Session, h: Handle, gen: map<Dev, nat>, inc: map<Dev, nat>,
                       count: map<Dev, nat>, objects: map<Handle, Obj>)
    requires SessionOk(i, se, gen, inc, count, objects)
    ensures SessionOk(i, se, gen, inc, count, objects - {h}) <==> !Claims(se, h, inc)
  {
    if Claims(se, h, inc) {
      if h in se.entries && se.flight != Freed(h) && se.entries[h].obj.inc == At(inc, se.entries[h].st.dev) {
        assert !EntryOk(i, h, se.entries[h], false, gen, inc, count, objects - {h});
      }
    } else {
      forall k | k in se.entries
        ensures EntryOk(i, k, se.entries[k], se.flight == Freed(k), gen, inc, count, objects - {h})
      {
        assert EntryOk(i, k, se.entries[k], se.flight == Freed(k), gen, inc, count, objects);
      }
    }
  }

  /** A free keeps every session's inventory right exactly if no other session has what is freed. */
  lemma FreeKeeps(st: State, s: nat, h: Handle)
    requires Inv(st) && Enabled(st, Free(s, h))
    ensures Inv(Apply(st, Free(s, h))) <==> FreesOwn(st, Free(s, h))
  {
    var se, to := st.sessions[s], st.sessions[s].(flight := Freed(h));
    var st' := Apply(st, Free(s, h));
    FreedOk(s, se, h, st.gen, st.inc, st.count, st.objects);
    hide SessionOk, Claims;
    SumSame(st.sessions, s, to);
    assert st'.sessions == st.sessions[s := to];
    forall i | 0 <= i < |st.sessions| && i != s
      ensures SessionOk(i, st'.sessions[i], st'.gen, st'.inc, st'.count, st'.objects)
         <==> !Claims(st.sessions[i], h, st.inc)
    {
      UnclaimedStays(i, st.sessions[i], h, st.gen, st.inc, st.count, st.objects);
    }
    FreeRest(st, st', s, to);
    hide GenOk, LockOk, Conserved;
  }

  lemma FreeRest(st: State, st': State, s: nat, to: Session)
    requires Inv(st) && s < |st.sessions| && !Busy(st.lock, s) && st'.sessions == st.sessions[s := to]
    requires st' == st.(sessions := st'.sessions, objects := st'.objects)
    requires forall d :: Sum(st'.sessions, d) == Sum(st.sessions, d)
    ensures GenOk(st'.gen, st'.inc, st'.lock) && LockOk(st'.sessions, st'.lock)
    ensures Conserved(st'.sessions, st'.lock, st'.count, st'.over)
  {
    hide SessionOk, AllOk, Sum;
  }

  lemma FreedOk(s: nat, se: Session, h: Handle, gen: map<Dev, nat>, inc: map<Dev, nat>,
                count: map<Dev, nat>, objects: map<Handle, Obj>)
    requires SessionOk(s, se, gen, inc, count, objects) && se.flight == Idle
    ensures se.phase == Serving ==> SessionOk(s, se.(flight := Freed(h)), gen, inc, count, objects - {h})
    ensures SessionOk(s, se.(entries := se.entries - {h}), gen, inc, count, objects - {h})
    ensures h in se.entries ==> se.entries[h].obj.owner == s
  {
    forall k | k in se.entries ensures EntryOk(s, k, se.entries[k], k == h, gen, inc, count, objects - {h}) {
      assert EntryOk(s, k, se.entries[k], false, gen, inc, count, objects);
    }
  }

  /** The tables move on for a session that did nothing. */
  lemma StillOk(s: nat, se: Session, gen: map<Dev, nat>, inc: map<Dev, nat>, count: map<Dev, nat>,
                objects: map<Handle, Obj>, gen': map<Dev, nat>, inc': map<Dev, nat>, count': map<Dev, nat>,
                objects': map<Handle, Obj>)
    requires SessionOk(s, se, gen, inc, count, objects)
    requires Gentle(inc, count, objects, inc', count', objects', s + 1) && forall d :: At(gen, d) <= At(gen', d)
    ensures SessionOk(s, se, gen', inc', count', objects')
  {
    hide SessionOk, Gentle;
    OthersKeep(s, se, s + 1, gen, inc, count, objects, gen', inc', count', objects');
  }

  /** Shared tables change; no session does. */
  lemma TableStep(st: State, st': State)
    requires Inv(st) && st'.sessions == st.sessions
    requires GenOk(st'.gen, st'.inc, st'.lock) && forall d :: At(st.gen, d) <= At(st'.gen, d)
    requires Gentle(st.inc, st.count, st.objects, st'.inc, st'.count, st'.objects, |st.sessions|)
    requires LockOk(st'.sessions, st'.lock) && Conserved(st'.sessions, st'.lock, st'.count, st'.over)
    ensures Inv(st')
  {
    hide SessionOk, Gentle, GenOk, LockOk, Conserved;
    forall i | 0 <= i < |st.sessions|
      ensures SessionOk(i, st.sessions[i], st'.gen, st'.inc, st'.count, st'.objects)
    {
      OthersKeep(i, st.sessions[i], |st.sessions|, st.gen, st.inc, st.count, st.objects,
                 st'.gen, st'.inc, st'.count, st'.objects);
    }
  }

  lemma RetainedOk(st: State, s: nat, d: Dev)
    requires Inv(st) && IsLive(st, s)
    ensures var se := st.sessions[s];
            SessionOk(s, se.(retains := se.retains[d := At(se.retains, d) + 1]), st.gen, st.inc, st.count, st.objects)
  {
    var se := st.sessions[s];
    assert SessionOk(s, se, st.gen, st.inc, st.count, st.objects);
    SameEntries(s, se, se.(retains := se.retains[d := At(se.retains, d) + 1]), st.gen, st.inc, st.count, st.objects);
  }

  lemma RetainConserves(st: State, s: nat, d: Dev)
    requires Conserved(st.sessions, st.lock, st.count, st.over) && s < |st.sessions| && st.lock == Unlocked
    ensures var st' := Retained(st, s, d); Conserved(st'.sessions, st'.lock, st'.count, st'.over)
  {
    var se, st' := st.sessions[s], Retained(st, s, d);
    hide Sum;
    forall e ensures Sum(st'.sessions, e) == Sum(st.sessions, e) + if e == d then 1 else 0 {
      SumUpdate(st.sessions, s, se.(retains := se.retains[d := At(se.retains, d) + 1]), e);
    }
  }

  lemma RetainKeeps(st: State, s: nat, d: Dev)
    requires Inv(st) && IsLive(st, s) && st.lock == Unlocked
    ensures Inv(Retained(st, s, d))
  {
    hide SessionOk, AllOk, Conserved;
    var se, st' := st.sessions[s], Retained(st, s, d);
    var to := se.(retains := se.retains[d := At(se.retains, d) + 1]);
    RetainedOk(st, s, d);
    RetainConserves(st, s, d);
    StillOk(s, to, st.gen, st.inc, st.count, st.objects, st'.gen, st'.inc, st'.count, st'.objects);
    SharedStep(st, st', s, to);
  }

  /** A destroyed context ends every object in it together with its incarnation. */
  lemma DeathIsGentle(st: State, d: Dev, s: nat)
    ensures var st' := Destroyed(st, d);
            && (forall e :: At(st'.inc, e) == At(st.inc, e) + if e == d then 1 else 0)
            && forall count' :: (forall e :: e != d ==> At(count', e) == At(st.count, e)) ==>
                 Gentle(st.inc, st.count, st.objects, st'.inc, count', st'.objects, s)
  {
  }

  lemma ReleaseKeeps(st: State, s: nat, d: Dev)
    requires Inv(st) && st.lock == Unlocked && At(st.count, d) > 0
    requires LockOk(st.sessions, Pending(s, d, true, At(st.count, d) == 1))
    ensures Inv(DriverRelease(st, s, d))
  {
    hide SessionOk, AllOk;
    var st' := DriverRelease(st, s, d);
    assert forall e :: At(st'.count, e) == At(st.count, e) - if e == d then 1 else 0;
    if At(st.count, d) == 1 {
      DeathIsGentle(st, d, |st.sessions|);
      var r := st.(count := st.count[d := 0], lock := Pending(s, d, true, true));
      assert Destroyed(r, d).objects == Destroyed(st, d).objects;
    }
    TableStep(st, st');
  }

  lemma ResetKeeps(st: State, s: nat, d: Dev)
    requires Inv(st) && IsLive(st, s) && st.lock == Unlocked
    ensures Inv(Destroyed(st.(lock := Pending(s, d, false, true)), d))
  {
    hide SessionOk, AllOk;
    var r := st.(lock := Pending(s, d, false, true));
    DeathIsGentle(r, d, |st.sessions|);
    TableStep(st, Destroyed(r, d));
  }

  lemma RecordedOk(s: nat, se: Session, d: Dev, release: bool, died: bool, now: nat, gen: map<Dev, nat>,
                   inc: map<Dev, nat>, count: map<Dev, nat>, objects: map<Handle, Obj>)
    requires SessionOk(s, se, gen, inc, count, objects) && se.flight == Idle && se.phase != Gone
    requires se.phase == Expiring ==> release && At(se.retains, d) > 0
    ensures var to := AfterRecord(se, d, release, died, now);
            && SessionOk(s, to, gen, inc, count, objects)
            && to.flight == se.flight && to.phase == se.phase
            && forall e :: At(to.retains, e) ==
                 At(se.retains, e) - if release && e == d && At(se.retains, e) > 0 then 1 else 0
  {
    var to := AfterRecord(se, d, release, died, now);
    SameEntries(s, se, to, gen, inc, count, objects);
  }

  /** The death is recorded before anything can bring the context back. */
  lemma RecordKeeps(st: State)
    requires Inv(st) && st.lock.Pending?
    ensures Inv(Recorded(st, st.lock.session, st.lock.dev, st.lock.release, st.lock.died))
  {
    var s, d, release, died := st.lock.session, st.lock.dev, st.lock.release, st.lock.died;
    var se, st' := st.sessions[s], Recorded(st, s, d, release, died);
    var to := AfterRecord(se, d, release, died, At(st'.gen, d));
    hide SessionOk, AfterRecord;
    RecordedOk(s, se, d, release, died, At(st'.gen, d), st.gen, st.inc, st.count, st.objects);
    StillOk(s, to, st.gen, st.inc, st.count, st.objects, st'.gen, st'.inc, st'.count, st'.objects);
    RecordConserves(st, s, to, d, release, died);
    SharedStep(st, st', s, to);
  }

  lemma RecordConserves(st: State, s: nat, to: Session, d: Dev, release: bool, died: bool)
    requires Conserved(st.sessions, st.lock, st.count, st.over) && st.lock == Pending(s, d, release, died)
    requires s < |st.sessions|
    requires forall e :: At(to.retains, e) == At(st.sessions[s].retains, e)
               - if release && e == d && At(st.sessions[s].retains, e) > 0 then 1 else 0
    ensures Conserved(st.sessions[s := to], Unlocked, st.count, Recorded(st, s, d, release, died).over)
  {
    hide AfterRecord;
    var over, after := Recorded(st, s, d, release, died).over, st.sessions[s := to];
    forall e ensures Sum(after, e) == At(st.count, e) + At(over, e) {
      SumUpdate(st.sessions, s, to, e);
    }
  }

  /**
    What expiry destroys is what the session made: still there, in the incarnation of the device's
    primary context that is alive at that moment.
   */
  lemma ExpiryDestroysItsOwn(st: State, s: nat, h: Handle)
    requires Inv(st) && IsExpiring(st, s) && st.lock == Unlocked && h in st.sessions[s].entries
    requires StillCurrent(st.gen, st.sessions[s].entries[h].st)
    ensures var e := st.sessions[s].entries[h];
            && h in st.objects && st.objects[h] == e.obj && e.obj.owner == s
            && e.obj.inc == At(st.inc, e.obj.dev) && At(st.count, e.obj.dev) > 0
  {
    assert SessionOk(s, st.sessions[s], st.gen, st.inc, st.count, st.objects);
  }

  lemma ExpireEntryKeeps(st: State, s: nat, h: Handle)
    requires Inv(st) && IsExpiring(st, s) && st.lock == Unlocked && h in st.sessions[s].entries
    ensures Inv(Expired(st, s, h))
  {
    hide SessionOk;
    var se, st' := st.sessions[s], Expired(st, s, h);
    var to := se.(entries := se.entries - {h});
    if StillCurrent(st.gen, se.entries[h].st) {
      ExpiryDestroysItsOwn(st, s, h);
      FreedOk(s, se, h, st.gen, st.inc, st.count, st.objects);
      SumSame(st.sessions, s, to);
      SharedStep(st, st', s, to);
    } else {
      assert se.(flight := Idle) == se;
      LandKeeps(st, s, {h});
    }
  }

  lemma RefusedConserves(st: State, s: nat, to: Session, d: Dev)
    requires Conserved(st.sessions, Unlocked, st.count, st.over) && s < |st.sessions| && At(st.count, d) == 0
    requires forall e :: At(to.retains, e) == if e == d then 0 else At(st.sessions[s].retains, e)
    ensures Conserved(st.sessions[s := to], Unlocked, st.count, ReleaseRefused(st, s, d).over)
  {
    var over, after := ReleaseRefused(st, s, d).over, st.sessions[s := to];
    SumAtLeast(st.sessions, s, d);
    forall e ensures Sum(after, e) == At(st.count, e) + At(over, e) {
      SumUpdate(st.sessions, s, to, e);
    }
  }

  lemma RefusedKeeps(st: State, s: nat, d: Dev)
    requires Inv(st) && IsExpiring(st, s) && st.lock == Unlocked && At(st.count, d) == 0
    ensures Inv(ReleaseRefused(st, s, d))
  {
    var se, st' := st.sessions[s], ReleaseRefused(st, s, d);
    var to := se.(retains := se.retains[d := 0], refused := se.refused + {d});
    assert SessionOk(s, to, st.gen, st.inc, st.count, st.objects) by {
      assert SessionOk(s, se, st.gen, st.inc, st.count, st.objects);
      SameEntries(s, se, to, st.gen, st.inc, st.count, st.objects);
    }
    hide SessionOk, AllOk, GenOk, Sum;
    RefusedConserves(st, s, to, d);
    hide Conserved;
    SharedStep(st, st', s, to);
  }

  /** Starting to expire, and having finished. */
  lemma PhaseKeeps(st: State, s: nat, to: Session)
    requires Inv(st) && s < |st.sessions| && st.sessions[s].flight == Idle && !Busy(st.lock, s)
    requires var se := st.sessions[s];
             || (se.phase == Serving && to == se.(phase := Expiring, owed := se.retains))
             || (se.phase == Expiring && to == se.(phase := Gone) && forall d :: At(se.retains, d) == 0)
    ensures Inv(With(st, s, to))
  {
    var se := st.sessions[s];
    assert SessionOk(s, to, st.gen, st.inc, st.count, st.objects) by {
      assert SessionOk(s, se, st.gen, st.inc, st.count, st.objects);
      SameEntries(s, se, to, st.gen, st.inc, st.count, st.objects);
    }
    hide SessionOk;
    PrivateStep(st, s, to);
  }

  /** The driver's answer to whether the context is inactive could be read, if it was asked. */
  predicate Readable(step: Step) {
    step.Record? ==> step.readable
  }

  lemma StepKeeps(st: State, step: Step)
    requires Inv(st) && Enabled(st, step) && Readable(step) && FreesOwn(st, step)
    ensures Inv(Apply(st, step))
  {
    hide SessionOk, AllOk, Conserved, GenOk, Claims, With, Noted, Making, Retained, Recorded, Destroyed;
    match step
    case Bind => BindKeeps(st);
    case TakeStamp(s, d) => StampKeeps(st, s, Stamp(d, At(st.gen, d)));
    case CopyStamp(s, h) => CopiedStamp(st, s, h); StampKeeps(st, s, st.sessions[s].entries[h].st);
    case StampUnknown(s, d) => StampKeeps(st, s, Stamp(d, ENDED));
    case Make(s, h) => MakeKeeps(st, s, h);
    case MakeFails(s) => FlightNotBusy(st, s); LandKeeps(st, s, {});
      assert st.sessions[s].entries - {} == st.sessions[s].entries;
    case Note(s) => NoteKeeps(st, s);
    case Free(s, h) => FreeKeeps(st, s, h);
    case Forget(s) => FlightNotBusy(st, s); LandKeeps(st, s, {st.sessions[s].flight.handle});
    case Retain(s, d) => RetainKeeps(st, s, d);
    case Release(s, d) => ReleaseKeeps(st, s, d);
    case Reset(s, d) => ResetKeeps(st, s, d);
    case Record(_) => RecordKeeps(st);
    case Expire(s) => PhaseKeeps(st, s, st.sessions[s].(phase := Expiring, owed := st.sessions[s].retains));
    case ExpireEntry(s, h) => ExpireEntryKeeps(st, s, h);
    case ExpireRelease(s, d) => if At(st.count, d) > 0 { ReleaseKeeps(st, s, d); } else { RefusedKeeps(st, s, d); }
    case Unbind(s) => PhaseKeeps(st, s, st.sessions[s].(phase := Gone));
  }
}
