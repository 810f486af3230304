/** What the generations and the retain counts promise, over every interleaving of the sessions. */
module PrimariesTheorems {
  import opened Primaries
  import opened PrimariesInvariant
  import opened PrimariesSteps

  /**
    Any steps of any sessions in any order, as long as the driver says whether a context is
    inactive and no client frees what another session has.
   */
  ghost predicate IsRun(states: seq<State>, steps: seq<Step>) {
    && |states| == |steps| + 1
    && states[0] == INIT
    && forall i :: 0 <= i < |steps| ==> Moves(states[i], steps[i], states[i + 1])
  }

  ghost predicate Moves(st: State, step: Step, st': State) {
    Enabled(st, step) && Readable(step) && FreesOwn(st, step) && st' == Apply(st, step)
  }

  lemma InitOk()
    ensures Inv(INIT)
  {
  }

  lemma {:induction false} RunInv(states: seq<State>, steps: seq<Step>, n: nat)
    requires IsRun(states, steps) && n < |states|
    ensures Inv(states[n])
  {
    InitOk();
    hide Inv, Enabled, Apply;
    if n > 0 {
      RunInv(states, steps, n - 1);
      assert Moves(states[n - 1], steps[n - 1], states[n]);
      StepKeeps(states[n - 1], steps[n - 1]);
    }
  }

  /**
    A destroy that expiry issues for something stamped with a device is of the very object the
    session made, and that object was made in the incarnation of the device's primary context
    alive at that moment.
   */
  lemma ExpiryFreesOnlyItsOwn(states: seq<State>, steps: seq<Step>, n: nat)
    requires IsRun(states, steps) && n < |steps| && steps[n].ExpireEntry?
    ensures var st, s, h := states[n], steps[n].s, steps[n].h;
            && s < |st.sessions| && h in st.sessions[s].entries
            && var e := st.sessions[s].entries[h];
               if StillCurrent(st.gen, e.st) then
                 && h in st.objects && st.objects[h] == e.obj && e.obj.owner == s
                 && e.obj.inc == At(st.inc, e.st.dev) && At(st.count, e.st.dev) > 0
                 && states[n + 1].objects == st.objects - {h}
               else states[n + 1].objects == st.objects
  {
    RunInv(states, steps, n);
    assert Moves(states[n], steps[n], states[n + 1]);
    var st, s, h := states[n], steps[n].s, steps[n].h;
    if StillCurrent(st.gen, st.sessions[s].entries[h].st) {
      ExpiryDestroysItsOwn(st, s, h);
    }
    SessionFacts(st, s, h);
  }

  lemma SessionFacts(st: State, s: nat, h: Handle)
    requires Inv(st) && s < |st.sessions| && h in st.sessions[s].entries
    ensures st.sessions[s].entries[h].obj.dev == st.sessions[s].entries[h].st.dev
  {
    assert SessionOk(s, st.sessions[s], st.gen, st.inc, st.count, st.objects);
  }

  /**
    The driver's count never exceeds what the sessions have recorded, and is what they have
    recorded as long as no session has released a retain it did not hold.
   */
  lemma RetainsConserved(states: seq<State>, steps: seq<Step>, n: nat, d: Dev)
    requires IsRun(states, steps) && n < |states|
    ensures At(states[n].count, d) <= Sum(states[n].sessions, d)
    ensures states[n].lock == Unlocked ==>
      (At(states[n].count, d) == Sum(states[n].sessions, d) <==> At(states[n].over, d) == 0)
  {
    RunInv(states, steps, n);
  }

  /** Only a client releasing more than it retained opens that gap; expiry never does. */
  lemma OnlyOverReleaseWidens(st: State, step: Step, d: Dev)
    requires Inv(st) && Enabled(st, step) && Readable(step) && At(Apply(st, step).over, d) > At(st.over, d)
    ensures step.Record? && st.lock.release && st.lock.dev == d
    ensures st.sessions[st.lock.session].phase == Serving && At(st.sessions[st.lock.session].retains, d) == 0
  {
    hide AllOk, Conserved, GenOk, Sum, AfterRecord;
  }

  /** A session that has expired released no more than it held, and all of it unless it was refused. */
  lemma ExpiryReleasesWhatItHeld(states: seq<State>, steps: seq<Step>, n: nat, s: nat, d: Dev)
    requires IsRun(states, steps) && n < |states| && s < |states[n].sessions|
    requires states[n].sessions[s].phase == Gone
    ensures var se := states[n].sessions[s];
            && At(se.released, d) <= At(se.owed, d)
            && (d !in se.refused ==> At(se.released, d) == At(se.owed, d))
  {
    RunInv(states, steps, n);
    var st := states[n];
    assert SessionOk(s, st.sessions[s], st.gen, st.inc, st.count, st.objects);
  }

  /** Nothing is refused while no session has over-released: the driver still counts every retain. */
  lemma RefusedOnlyAfterOverRelease(states: seq<State>, steps: seq<Step>, n: nat)
    requires IsRun(states, steps) && n < |steps| && steps[n].ExpireRelease?
    requires At(states[n].over, steps[n].d) == 0
    ensures At(states[n].count, steps[n].d) > 0
  {
    RunInv(states, steps, n);
    assert Moves(states[n], steps[n], states[n + 1]);
    SumAtLeast(states[n].sessions, steps[n].s, steps[n].d);
  }

  /** Recording the last release keeps the generation in step exactly when the state could be read. */
  lemma UnreadableLosesTrack(st: State, readable: bool)
    requires Inv(st) && st.lock.Pending? && st.lock.release && st.lock.died
    ensures var st' := Apply(st, Record(readable)); GenOk(st'.gen, st'.inc, st'.lock) <==> readable
  {
    var st', d := Apply(st, Record(readable)), st.lock.dev;
    assert At(st'.inc, d) == At(st.gen, d) + 1;
    assert At(st'.gen, d) == At(st.gen, d) + if readable then 1 else 0;
  }

  // --- when the driver does not say ------------------------------------------

  datatype Outcome = Reached(st: State) | Stuck

  /** The state the steps lead to from the beginning, if each of them can be taken. */
  function After(steps: seq<Step>): Outcome {
    if steps == [] then Reached(INIT)
    else
      var before, last := After(steps[..|steps| - 1]), steps[|steps| - 1];
      if before.Reached? && Enabled(before.st, last) then Reached(Apply(before.st, last)) else Stuck
  }

  /** The steps can be taken, and lead from the beginning to `st`. */
  predicate Reaches(steps: seq<Step>, st: State) {
    After(steps) == Reached(st)
  }

  lemma Begins()
    ensures Reaches([], INIT)
  {
  }

  lemma Next(steps: seq<Step>, st: State, step: Step, to: State) returns (more: seq<Step>)
    requires Reaches(steps, st) && Enabled(st, step)
    requires var st' := Apply(st, step);
             && st'.sessions == to.sessions && st'.objects == to.objects
             && st' == to.(sessions := st'.sessions, objects := st'.objects)
    ensures Reaches(more, to)
  {
    hide Enabled, Apply;
    more := steps + [step];
    assert more[..|steps|] == steps;
  }

  const HIS := Entry(Stamp(0, 0), Obj(0, 1, 0, 0, 1))
  const HERS := Entry(Stamp(0, 0), Obj(1, 1, 0, 1, 2))
  const HOLDER := NEW_SESSION.(retains := map[0 := 1])
  const LEFT := NEW_SESSION.(entries := map[1 := HIS], retains := map[0 := 0])
  const MAKER := HOLDER.(flight := Made(HERS.st, 1, HERS.obj))

  /** The first of two sessions has retained device 0 and made something there. */
  const MADE :=
    State([HOLDER.(entries := map[1 := HIS]), NEW_SESSION], map[], Unlocked, map[0 := 1], map[],
          map[1 := HIS.obj], 1, map[])

  /** It has released the device, and the driver could not say that this was the last release. */
  const LOST := State([LEFT, NEW_SESSION], map[], Unlocked, map[0 := 0], map[0 := 1], map[], 1, map[])

  /** The second has retained the device and made something at the same address; the first expires. */
  const REUSED :=
    State([LEFT.(phase := Expiring, owed := map[0 := 0]), MAKER], map[], Unlocked, map[0 := 1], map[0 := 1],
          map[1 := HERS.obj], 2, map[])

  lemma FirstMakes() returns (steps: seq<Step>)
    ensures Reaches(steps, MADE)
  {
    hide Reaches;
    Begins();
    var s1 := INIT.(sessions := [NEW_SESSION]);
    var s2 := INIT.(sessions := [NEW_SESSION, NEW_SESSION]);
    var s3 := s2.(sessions := [HOLDER, NEW_SESSION], count := map[0 := 1]);
    var s4 := s3.(sessions := [HOLDER.(flight := Stamped(HIS.st)), NEW_SESSION]);
    var s5 := MADE.(sessions := [HOLDER.(flight := Made(HIS.st, 1, HIS.obj)), NEW_SESSION]);
    steps := Next([], INIT, Bind, s1);
    steps := Next(steps, s1, Bind, s2);
    steps := Next(steps, s2, Retain(0, 0), s3);
    steps := Next(steps, s3, TakeStamp(0, 0), s4);
    steps := Next(steps, s4, Make(0, 1), s5);
    steps := Next(steps, s5, Note(0), MADE);
  }

  lemma FirstIsForgotten(before: seq<Step>) returns (steps: seq<Step>)
    requires Reaches(before, MADE)
    ensures Reaches(steps, LOST)
  {
    hide Reaches;
    var s1 := MADE.(lock := Pending(0, 0, true, true), count := map[0 := 0], inc := map[0 := 1], objects := map[]);
    steps := Next(before, MADE, Release(0, 0), s1);
    steps := Next(steps, s1, Record(false), LOST);
  }

  lemma SecondMakes(before: seq<Step>) returns (steps: seq<Step>)
    requires Reaches(before, LOST)
    ensures Reaches(steps, REUSED)
  {
    hide Reaches;
    var s1 := LOST.(sessions := [LEFT, HOLDER], count := map[0 := 1]);
    var s2 := s1.(sessions := [LEFT, HOLDER.(flight := Stamped(HERS.st))]);
    var s3 := REUSED.(sessions := [LEFT, MAKER]);
    steps := Next(before, LOST, Retain(1, 0), s1);
    steps := Next(steps, s1, TakeStamp(1, 0), s2);
    steps := Next(steps, s2, Make(1, 1), s3);
    steps := Next(steps, s3, Expire(0), REUSED);
  }

  /**
    With the state unreadable the safety above fails: this run ends with the first session's
    expiry giving back what the second has just made.
   */
  lemma UnreadableFreesAnothers() returns (steps: seq<Step>, st: State)
    ensures Reaches(steps, st) && Enabled(st, ExpireEntry(0, 1))
    ensures 1 in st.objects && st.objects[1].owner == 1 && 1 !in Apply(st, ExpireEntry(0, 1)).objects
  {
    hide Reaches;
    steps := FirstMakes();
    steps := FirstIsForgotten(steps);
    steps := SecondMakes(steps);
    st := REUSED;
  }

  // --- when a client frees what is not its own ---------------------------------

  const TAKEN := HERS.(obj := Obj(1, 1, 0, 0, 2))

  /** The first session's object is gone, and the second's is at its address. */
  const REPLACED :=
    State([HOLDER.(entries := map[1 := HIS]), HOLDER.(entries := map[1 := TAKEN])], map[], Unlocked, map[0 := 2],
          map[], map[1 := TAKEN.obj], 2, map[])

  lemma SecondFrees(before: seq<Step>) returns (steps: seq<Step>)
    requires Reaches(before, MADE)
    ensures Reaches(steps, REPLACED.(sessions := [REPLACED.sessions[0], HOLDER], objects := map[], made := 1))
  {
    hide Reaches;
    var first := REPLACED.sessions[0];
    var s1 := REPLACED.(sessions := [first, HOLDER], objects := map[1 := HIS.obj], made := 1);
    var s2 := s1.(sessions := [first, HOLDER.(flight := Freed(1))], objects := map[]);
    steps := Next(before, MADE, Retain(1, 0), s1);
    steps := Next(steps, s1, Free(1, 1), s2);
    steps := Next(steps, s2, Forget(1), s2.(sessions := [first, HOLDER]));
  }

  lemma SecondMakesThere(before: seq<Step>) returns (steps: seq<Step>)
    requires Reaches(before, REPLACED.(sessions := [REPLACED.sessions[0], HOLDER], objects := map[], made := 1))
    ensures Reaches(steps, REPLACED)
  {
    hide Reaches;
    var first := REPLACED.sessions[0];
    var s1 := REPLACED.(sessions := [first, HOLDER], objects := map[], made := 1);
    var s2 := s1.(sessions := [first, HOLDER.(flight := Stamped(TAKEN.st))]);
    var s3 := REPLACED.(sessions := [first, HOLDER.(flight := Made(TAKEN.st, 1, TAKEN.obj))]);
    steps := Next(before, s1, TakeStamp(1, 0), s2);
    steps := Next(steps, s2, Make(1, 1), s3);
    steps := Next(steps, s3, Note(1), REPLACED);
  }

  /**
    If a client frees what another session has, the safety above fails: this run ends with the
    first session's expiry giving back what the second made at the address it had freed.
   */
  lemma StolenAddressIsFreed() returns (steps: seq<Step>, st: State)
    ensures Reaches(steps, st) && Enabled(st, ExpireEntry(0, 1))
    ensures 1 in st.objects && st.objects[1].owner == 1 && 1 !in Apply(st, ExpireEntry(0, 1)).objects
  {
    hide Reaches;
    steps := FirstMakes();
    steps := SecondFrees(steps);
    steps := SecondMakesThere(steps);
    st := REPLACED.(sessions := [REPLACED.sessions[0].(phase := Expiring, owed := map[0 := 1]), REPLACED.sessions[1]]);
    steps := Next(steps, REPLACED, Expire(0), st);
  }

  // --- a session alone ------------------------------------------------------------------

  const ALONE := HOLDER.(entries := map[1 := HIS])
  const LIVED := State([ALONE], map[], Unlocked, map[0 := 1], map[], map[1 := HIS.obj], 1, map[])

  /** A session makes something, tries to make more like it, and resets the device. */
  lemma OneSessionLives() returns (steps: seq<Step>)
    ensures Reaches(steps, LIVED)
  {
    hide Reaches;
    Begins();
    var s1 := INIT.(sessions := [NEW_SESSION]);
    var s2 := s1.(sessions := [HOLDER], count := map[0 := 1]);
    var s3 := s2.(sessions := [HOLDER.(flight := Stamped(HIS.st))]);
    var s4 := LIVED.(sessions := [HOLDER.(flight := Made(HIS.st, 1, HIS.obj))]);
    steps := Next([], INIT, Bind, s1);
    steps := Next(steps, s1, Retain(0, 0), s2);
    steps := Next(steps, s2, TakeStamp(0, 0), s3);
    steps := Next(steps, s3, Make(0, 1), s4);
    steps := Next(steps, s4, Note(0), LIVED);
    var s6 := LIVED.(sessions := [ALONE.(flight := Stamped(HIS.st))]);
    steps := Next(steps, LIVED, CopyStamp(0, 1), s6);
    steps := Next(steps, s6, MakeFails(0), LIVED);
  }

  const RESET := State([HOLDER], map[0 := 1], Unlocked, map[0 := 1], map[0 := 1], map[], 1, map[])

  lemma Resets(before: seq<Step>) returns (steps: seq<Step>)
    requires Reaches(before, LIVED)
    ensures Reaches(steps, RESET)
  {
    hide Reaches;
    assert Bound([ALONE]) == 1 by { assert [ALONE][..0] == []; }
    var s1 := LIVED.(lock := Pending(0, 0, false, true), inc := map[0 := 1], objects := map[]);
    steps := Next(before, LIVED, Reset(0, 0), s1);
    assert WithoutStale(ALONE, 0, 1).entries == map[];
    steps := Next(steps, s1, Record(true), RESET);
  }

  const LEAVING := HOLDER.(phase := Expiring, owed := map[0 := 1])
  const OWED := RESET.(sessions := [LEAVING])

  /** What it retained is released when it has expired, although it had reset the device before. */
  lemma ResetStillOwes() returns (steps: seq<Step>, st: State)
    ensures Reaches(steps, st) && |st.sessions| == 1 && st.sessions[0].phase == Gone
    ensures At(st.count, 0) == 0 && At(st.sessions[0].released, 0) == 1 && st.objects == map[]
  {
    hide Reaches;
    steps := OneSessionLives();
    steps := Resets(steps);
    steps := Next(steps, RESET, Expire(0), OWED);
    steps, st := IsReleased(steps);
  }

  /** The release has destroyed the context, and is not recorded yet. */
  const RELEASED := OWED.(lock := Pending(0, 0, true, true), count := map[0 := 0], inc := map[0 := 2])
  const PAID := LEAVING.(retains := map[0 := 0], released := map[0 := 1])

  lemma IsReleased(before: seq<Step>) returns (steps: seq<Step>, st: State)
    requires Reaches(before, OWED)
    ensures Reaches(steps, st) && |st.sessions| == 1 && st.sessions[0].phase == Gone
    ensures At(st.count, 0) == 0 && At(st.sessions[0].released, 0) == 1 && st.objects == map[]
  {
    hide Reaches;
    steps := Next(before, OWED, ExpireRelease(0, 0), RELEASED);
    steps, st := IsPaid(steps);
  }

  lemma IsPaid(before: seq<Step>) returns (steps: seq<Step>, st: State)
    requires Reaches(before, RELEASED)
    ensures Reaches(steps, st) && |st.sessions| == 1 && st.sessions[0].phase == Gone
    ensures At(st.count, 0) == 0 && At(st.sessions[0].released, 0) == 1 && st.objects == map[]
  {
    hide Reaches;
    var s3 := RELEASED.(sessions := [PAID], lock := Unlocked, gen := map[0 := 2]);
    assert AfterRecord(LEAVING, 0, true, true, 2) == PAID;
    steps := Next(before, RELEASED, Record(true), s3);
    st := s3.(sessions := [PAID.(phase := Gone)]);
    steps := Next(steps, s3, Unbind(0), st);
  }

  const NOWHERE := Entry(Stamp(0, ENDED), HIS.obj)

  /** What is made from something the session did not make is passed over at expiry, and stays. */
  lemma UnknownPlaceIsLeft() returns (steps: seq<Step>, st: State)
    ensures Reaches(steps, st) && |st.sessions| == 1 && st.sessions[0].entries == map[]
    ensures st.sessions[0].phase == Expiring && st.objects == map[1 := HIS.obj]
  {
    hide Reaches;
    Begins();
    var s1 := INIT.(sessions := [NEW_SESSION]);
    var s2 := s1.(sessions := [HOLDER], count := map[0 := 1]);
    var s3 := s2.(sessions := [HOLDER.(flight := Stamped(NOWHERE.st))]);
    var s4 := s2.(sessions := [HOLDER.(flight := Made(NOWHERE.st, 1, HIS.obj))], objects := map[1 := HIS.obj],
                  made := 1);
    var s5 := s4.(sessions := [HOLDER.(entries := map[1 := NOWHERE])]);
    steps := Next([], INIT, Bind, s1);
    steps := Next(steps, s1, Retain(0, 0), s2);
    steps := Next(steps, s2, StampUnknown(0, 0), s3);
    steps := Next(steps, s3, Make(0, 1), s4);
    steps := Next(steps, s4, Note(0), s5);
    var over := HOLDER.(phase := Expiring, owed := map[0 := 1]);
    var s6 := s5.(sessions := [over.(entries := map[1 := NOWHERE])]);
    steps := Next(steps, s5, Expire(0), s6);
    st := s5.(sessions := [over]);
    steps := Next(steps, s6, ExpireEntry(0, 1), st);
  }
}
