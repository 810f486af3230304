/** What every interleaving of the sessions keeps true of the primary contexts. */
module PrimariesInvariant {
  import opened Primaries

  /** Outside a release or reset the generation is the incarnation; inside, a death is not yet recorded. */
  ghost predicate GenOk(gen: map<Dev, nat>, inc: map<Dev, nat>, lock: Lock) {
    forall d :: At(inc, d) == At(gen, d) + if lock.Pending? && lock.died && lock.dev == d then 1 else 0
  }

  /**
    An entry never claims a later generation than the incarnation its object was made in, and if
    that incarnation is the present one the object is there and the context alive.
   */
  ghost predicate EntryOk(i: nat, h: Handle, e: Entry, freed: bool, gen: map<Dev, nat>, inc: map<Dev, nat>,
                          count: map<Dev, nat>, objects: map<Handle, Obj>) {
    && e.obj.owner == i && e.obj.handle == h && e.obj.dev == e.st.dev
    && e.obj.inc <= At(inc, e.st.dev)
    && (e.st.gen == ENDED || (e.st.gen <= e.obj.inc && e.st.gen <= At(gen, e.st.dev)))
    && (e.obj.inc == At(inc, e.st.dev) && !freed ==>
          h in objects && objects[h] == e.obj && At(count, e.st.dev) > 0)
  }

  ghost predicate EntriesOk(i: nat, se: Session, gen: map<Dev, nat>, inc: map<Dev, nat>,
                            count: map<Dev, nat>, objects: map<Handle, Obj>) {
    forall h :: h in se.entries ==> EntryOk(i, h, se.entries[h], se.flight == Freed(h), gen, inc, count, objects)
  }

  ghost predicate FlightOk(i: nat, f: Flight, gen: map<Dev, nat>, inc: map<Dev, nat>,
                           count: map<Dev, nat>, objects: map<Handle, Obj>) {
    match f
    case Stamped(st) => st.gen == ENDED || st.gen <= At(gen, st.dev)
    case Made(st, h, obj) => EntryOk(i, h, Entry(st, obj), false, gen, inc, count, objects)
    case _ => true
  }

  /** Expiry has released what it owed, less what is left and what was refused. */
  ghost predicate ExpiryOk(se: Session) {
    && (se.phase == Serving ==> se.released == map[] && se.refused == {})
    && (se.phase == Gone ==> forall d :: At(se.retains, d) == 0)
    && (se.phase != Serving ==> se.flight == Idle && forall d ::
          && At(se.released, d) + At(se.retains, d) <= At(se.owed, d)
          && (d !in se.refused ==> At(se.released, d) + At(se.retains, d) == At(se.owed, d)))
  }

  ghost predicate SessionOk(i: nat, se: Session, gen: map<Dev, nat>, inc: map<Dev, nat>,
                            count: map<Dev, nat>, objects: map<Handle, Obj>) {
    && EntriesOk(i, se, gen, inc, count, objects)
    && FlightOk(i, se.flight, gen, inc, count, objects)
    && ExpiryOk(se)
  }

  ghost predicate AllOk(sessions: seq<Session>, gen: map<Dev, nat>, inc: map<Dev, nat>,
                        count: map<Dev, nat>, objects: map<Handle, Obj>) {
    forall i :: 0 <= i < |sessions| ==> SessionOk(i, sessions[i], gen, inc, count, objects)
  }

  ghost predicate LockOk(sessions: seq<Session>, lock: Lock) {
    lock.Pending? ==>
      && lock.session < |sessions| && sessions[lock.session].flight == Idle
      && sessions[lock.session].phase != Gone
      && (sessions[lock.session].phase == Expiring ==>
            lock.release && At(sessions[lock.session].retains, lock.dev) > 0)
  }

  /** The retains all sessions have recorded for a device. */
  function Sum(sessions: seq<Session>, d: Dev): nat {
    if sessions == [] then 0
    else Sum(sessions[..|sessions| - 1], d) + At(sessions[|sessions| - 1].retains, d)
  }

  /** What the sessions have recorded is what the driver counts, and what was released without a retain. */
  ghost predicate Conserved(sessions: seq<Session>, lock: Lock, count: map<Dev, nat>, over: map<Dev, nat>) {
    forall d :: Sum(sessions, d) ==
      At(count, d) + At(over, d) + if lock.Pending? && lock.release && lock.dev == d then 1 else 0
  }

  ghost predicate Inv(st: State) {
    && GenOk(st.gen, st.inc, st.lock)
    && AllOk(st.sessions, st.gen, st.inc, st.count, st.objects)
    && LockOk(st.sessions, st.lock)
    && Conserved(st.sessions, st.lock, st.count, st.over)
  }

  // --- sums ------------------------------------------------------------------

  lemma {:induction false} SumUpdate(sessions: seq<Session>, i: nat, se: Session, d: Dev)
    requires i < |sessions|
    ensures Sum(sessions[i := se], d) + At(sessions[i].retains, d) == Sum(sessions, d) + At(se.retains, d)
  {
    var last := |sessions| - 1;
    if i < last {
      SumUpdate(sessions[..last], i, se, d);
      assert sessions[i := se][..last] == sessions[..last][i := se];
    } else {
      assert sessions[i := se][..last] == sessions[..last];
    }
  }

  lemma {:induction false} SumAtLeast(sessions: seq<Session>, i: nat, d: Dev)
    requires i < |sessions|
    ensures At(sessions[i].retains, d) <= Sum(sessions, d)
  {
    if i < |sessions| - 1 {
      SumAtLeast(sessions[..|sessions| - 1], i, d);
    }
  }

  lemma SumSame(sessions: seq<Session>, i: nat, se: Session)
    requires i < |sessions| && se.retains == sessions[i].retains
    ensures forall d :: Sum(sessions[i := se], d) == Sum(sessions, d)
  {
    forall d ensures Sum(sessions[i := se], d) == Sum(sessions, d) {
      SumUpdate(sessions, i, se, d);
    }
  }

  // --- what one session's step means to the others ---------------------------

  /** The tables change so that nothing still current is lost, except what session `s` itself made at `gone`. */
  ghost predicate Gentle(inc: map<Dev, nat>, count: map<Dev, nat>, objects: map<Handle, Obj>,
                         inc': map<Dev, nat>, count': map<Dev, nat>, objects': map<Handle, Obj>, s: nat) {
    && (forall d :: At(inc, d) <= At(inc', d))
    && (forall d :: At(inc, d) == At(inc', d) && At(count, d) > 0 ==> At(count', d) > 0)
    && (forall h :: h in objects && objects[h].owner != s && At(inc, objects[h].dev) == At(inc', objects[h].dev) ==>
          h in objects' && objects'[h] == objects[h])
  }

  lemma OthersKeep(i: nat, se: Session, s: nat, gen: map<Dev, nat>, inc: map<Dev, nat>, count: map<Dev, nat>,
                   objects: map<Handle, Obj>, gen': map<Dev, nat>, inc': map<Dev, nat>, count': map<Dev, nat>,
                   objects': map<Handle, Obj>)
    requires SessionOk(i, se, gen, inc, count, objects) && i != s
    requires Gentle(inc, count, objects, inc', count', objects', s)
    requires forall d :: At(gen, d) <= At(gen', d)
    ensures SessionOk(i, se, gen', inc', count', objects')
  {
    forall h | h in se.entries
      ensures EntryOk(i, h, se.entries[h], se.flight == Freed(h), gen', inc', count', objects')
    {
      assert EntryOk(i, h, se.entries[h], se.flight == Freed(h), gen, inc, count, objects);
    }
  }

  /** One session steps; the rest are as they were. */
  lemma OneSteps(sessions: seq<Session>, s: nat, se: Session, gen: map<Dev, nat>, inc: map<Dev, nat>,
                 count: map<Dev, nat>, objects: map<Handle, Obj>, gen': map<Dev, nat>, inc': map<Dev, nat>,
                 count': map<Dev, nat>, objects': map<Handle, Obj>)
    requires AllOk(sessions, gen, inc, count, objects) && s < |sessions|
    requires Gentle(inc, count, objects, inc', count', objects', s)
    requires forall d :: At(gen, d) <= At(gen', d)
    requires SessionOk(s, se, gen', inc', count', objects')
    ensures AllOk(sessions[s := se], gen', inc', count', objects')
  {
    hide SessionOk, Gentle;
    var after := sessions[s := se];
    forall i | 0 <= i < |after| ensures SessionOk(i, after[i], gen', inc', count', objects') {
      if i != s {
        OthersKeep(i, sessions[i], s, gen, inc, count, objects, gen', inc', count', objects');
      }
    }
  }
}
