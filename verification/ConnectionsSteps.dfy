/** Every step keeps each connection owned once, and the session table right. */
module ConnectionsSteps {
  import opened Wrappers
  import opened Connections

  // --- one connection moves, and one session with it -------------------------

  lemma SlotMoves(sessions: seq<Session>, place: seq<Place>, s: nat, se: Session, c: Conn, to: Place)
    requires SlotHeld(sessions, place) && s < |sessions| && c < |place|
    requires (place[c].InSlot? ==> place[c] == InSlot(s)) && (to.InSlot? ==> to == InSlot(s))
    requires se.pending == if to == InSlot(s) then Some(c)
                           else if place[c] == InSlot(s) then None else sessions[s].pending
    requires to == InSlot(s) ==> sessions[s].pending == None || place[c] == InSlot(s)
    ensures SlotHeld(sessions[s := se], place[c := to])
  {
  }

  lemma ServedMoves(sessions: seq<Session>, place: seq<Place>, s: nat, se: Session, c: Conn, to: Place)
    requires ServedHeld(sessions, place) && s < |sessions| && c < |place|
    requires (place[c].Served? ==> place[c] == Served(s)) && (to.Served? ==> to == Served(s))
    requires to == Served(s) ==> se.serving == Reading(c) && !sessions[s].serving.Reading?
    requires to != Served(s) && place[c] == Served(s) ==> !se.serving.Reading?
    requires to != Served(s) && place[c] != Served(s) ==>
      se.serving == sessions[s].serving || (!se.serving.Reading? && !sessions[s].serving.Reading?)
    ensures ServedHeld(sessions[s := se], place[c := to])
  {
  }

  /** A connection no session has moves on its own. */
  lemma SessionsUntouched(sessions: seq<Session>, place: seq<Place>, c: Conn)
    requires SlotHeld(sessions, place) && ServedHeld(sessions, place) && c < |place| && place[c] == Accepting
    ensures SlotHeld(sessions, place[c := Closed]) && ServedHeld(sessions, place[c := Closed])
  {
  }

  /** A session changes, and no connection moves. */
  lemma PlacesUntouched(sessions: seq<Session>, place: seq<Place>, s: nat, se: Session)
    requires SlotHeld(sessions, place) && ServedHeld(sessions, place) && s < |sessions|
    requires se.pending == sessions[s].pending && !se.serving.Reading? && !sessions[s].serving.Reading?
    ensures SlotHeld(sessions[s := se], place) && ServedHeld(sessions[s := se], place)
  {
  }

  lemma CloseOnce(closes: seq<nat>, place: seq<Place>, c: Conn, to: Place)
    requires ClosedOnce(closes, place) && c < |place| && place[c] != Closed
    ensures to == Closed ==> ClosedOnce(closes[c := closes[c] + 1], place[c := to])
    ensures to != Closed ==> ClosedOnce(closes, place[c := to])
  {
  }

  lemma AcceptMoves(accepts: map<Conn, Stage>, place: seq<Place>, c: Conn, to: Place)
    requires AcceptHeld(accepts, place) && c < |place| && to != Accepting
    ensures c in accepts ==> AcceptHeld(accepts - {c}, place[c := to])
    ensures c !in accepts ==> AcceptHeld(accepts, place[c := to])
  {
  }

  lemma PhaseMoves(sessions: seq<Session>, s: nat, se: Session)
    requires Phases(sessions) && s < |sessions| && PhaseOk(se)
    ensures Phases(sessions[s := se])
  {
    hide PhaseOk;
  }

  /** Accept threads other than `c` are not starting the session that changes. */
  lemma StartingMoves(sessions: seq<Session>, accepts: map<Conn, Stage>, s: nat, se: Session, gone: set<Conn>)
    requires Starting(sessions, accepts) && s < |sessions|
    requires forall d :: d in accepts && d !in gone && IsNew(accepts[d]) && accepts[d].session == s ==>
               se.serving == NotStarted && !se.finished
    ensures Starting(sessions[s := se], accepts - gone)
  {
  }

  lemma TableMoves(sessions: seq<Session>, table: map<Key, nat>, cap: nat, s: nat, se: Session)
    requires TableOk(sessions, table, cap) && s < |sessions|
    requires se.key == sessions[s].key && (sessions[s].finished ==> se.finished)
    ensures TableOk(sessions[s := se], table, cap)
  {
  }

  /** What a finished session takes out of the table is itself. */
  lemma EraseTable(sessions: seq<Session>, table: map<Key, nat>, cap: nat, s: nat, se: Session)
    requires TableOk(sessions, table, cap) && s < |sessions| && se.key == sessions[s].key && se.finished
    ensures TableOk(sessions[s := se], Erased(table, se.key, s), cap)
  {
    if se.key in table && table[se.key] == s {
      assert (table - {se.key}).Keys == table.Keys - {se.key};
    }
  }

  // --- the steps -------------------------------------------------------------

  lemma AcceptKeeps(st: State, cap: nat)
    requires Inv(st, cap)
    ensures Inv(Apply(st, Accept, cap), cap)
  {
    hide TableOk, Phases;
    var st' := Apply(st, Accept, cap);
    assert forall c :: 0 <= c < |st.place| ==> st'.place[c] == st.place[c];
    assert |st.place| !in st.accepts;
  }

  lemma RefuseKeeps(st: State, c: Conn, cap: nat)
    requires Inv(st, cap) && c in st.accepts
    ensures Inv(Refuse(st, c), cap)
  {
    hide TableOk, Phases, SlotHeld, ServedHeld;
    CloseOnce(st.closes, st.place, c, Closed);
    SessionsUntouched(st.sessions, st.place, c);
    AcceptMoves(st.accepts, st.place, c, Closed);
  }

  lemma AnswerKeeps(st: State, c: Conn, cap: nat)
    requires Inv(st, cap) && c in st.accepts && st.accepts[c].Found?
    ensures Inv(Apply(st, Answer(c), cap), cap)
  {
    hide TableOk, Phases, SlotHeld, ServedHeld, ClosedOnce;
    var st' := Apply(st, Answer(c), cap);
    assert forall d :: d in st'.accepts ==> IsNew(st'.accepts[d]) == IsNew(st.accepts[d]);
  }

  lemma ClosePendingKeeps(st: State, s: nat, cap: nat)
    requires Inv(st, cap) && s < |st.sessions|
    ensures var st' := ClosePending(st, s);
            && Inv(st', cap) && st'.sessions == st.sessions[s := st.sessions[s].(pending := None)]
            && st'.accepts == st.accepts && st'.table == st.table
  {
    var se := st.sessions[s].(pending := None);
    if st.sessions[s].pending.Some? {
      var p := st.sessions[s].pending.value;
      assert p !in st.accepts && PhaseOk(st.sessions[s]);
      hide TableOk, Phases, SlotHeld, ServedHeld, Starting, AcceptHeld;
      CloseOnce(st.closes, st.place, p, Closed);
      SlotMoves(st.sessions, st.place, s, se, p, Closed);
      ServedMoves(st.sessions, st.place, s, se, p, Closed);
      AcceptMoves(st.accepts, st.place, p, Closed);
      PhaseMoves(st.sessions, s, se);
      NewIsSame(st.sessions, st.accepts, s, se);
      TableMoves(st.sessions, st.table, cap, s, se);
    } else {
      assert st.sessions[s] == se;
    }
  }

  lemma NewIsSame(sessions: seq<Session>, accepts: map<Conn, Stage>, s: nat, se: Session)
    requires Starting(sessions, accepts) && s < |sessions|
    requires se.serving == sessions[s].serving && se.finished == sessions[s].finished
    ensures Starting(sessions[s := se], accepts)
  {
  }

  /** A slot that is empty takes the connection; its session is there to be served. */
  lemma PutKeeps(st: State, c: Conn, s: nat, serving: Serving, cap: nat)
    requires Inv(st, cap) && c in st.accepts && !st.accepts[c].Greeting? && st.accepts[c].session == s
    requires s < |st.sessions| && st.sessions[s].pending == None && !st.sessions[s].finished
    requires serving == st.sessions[s].serving || (IsNew(st.accepts[c]) && serving == Waiting)
    ensures Inv(PutInSlot(st, c, s, serving), cap)
  {
    var se := st.sessions[s].(pending := Some(c), serving := serving);
    assert PhaseOk(st.sessions[s]);
    if IsNew(st.accepts[c]) {
      assert st.sessions[s].serving == NotStarted;
    }
    assert forall d :: d in st.accepts && d !in {c} && IsNew(st.accepts[d]) && st.accepts[d].session == s ==>
      se.serving == NotStarted && !se.finished;
    StartingMoves(st.sessions, st.accepts, s, se, {c});
    hide TableOk, Phases, SlotHeld, ServedHeld, Starting, ClosedOnce;
    CloseOnce(st.closes, st.place, c, InSlot(s));
    SlotMoves(st.sessions, st.place, s, se, c, InSlot(s));
    ServedMoves(st.sessions, st.place, s, se, c, InSlot(s));
    AcceptMoves(st.accepts, st.place, c, InSlot(s));
    PhaseMoves(st.sessions, s, se);
    TableMoves(st.sessions, st.table, cap, s, se);
  }

  lemma TakeKeeps(st: State, s: nat, cap: nat)
    requires Inv(st, cap) && s < |st.sessions| && st.sessions[s].serving == Waiting && st.sessions[s].pending.Some?
    ensures var c := st.sessions[s].pending.value;
            Inv(st.(sessions := st.sessions[s := st.sessions[s].(pending := None, serving := Reading(c))],
                    place := Moved(st.place, c, Served(s))), cap)
  {
    var c := st.sessions[s].pending.value;
    var se := st.sessions[s].(pending := None, serving := Reading(c));
    assert c !in st.accepts && PhaseOk(st.sessions[s]);
    StartingMoves(st.sessions, st.accepts, s, se, {});
    assert st.accepts - {} == st.accepts;
    hide TableOk, Phases, SlotHeld, ServedHeld, Starting, ClosedOnce, AcceptHeld;
    CloseOnce(st.closes, st.place, c, Served(s));
    SlotMoves(st.sessions, st.place, s, se, c, Served(s));
    ServedMoves(st.sessions, st.place, s, se, c, Served(s));
    AcceptMoves(st.accepts, st.place, c, Served(s));
    PhaseMoves(st.sessions, s, se);
    TableMoves(st.sessions, st.table, cap, s, se);
  }

  lemma EndKeeps(st: State, s: nat, cap: nat)
    requires Inv(st, cap) && s < |st.sessions| && st.sessions[s].serving.Reading?
    ensures var c := st.sessions[s].serving.conn;
            Inv(Close(st, c).(sessions := st.sessions[s := st.sessions[s].(serving := Waiting)]), cap)
  {
    var c := st.sessions[s].serving.conn;
    var se := st.sessions[s].(serving := Waiting);
    assert c !in st.accepts && PhaseOk(st.sessions[s]);
    StartingMoves(st.sessions, st.accepts, s, se, {});
    assert st.accepts - {} == st.accepts;
    hide TableOk, Phases, SlotHeld, ServedHeld, Starting, AcceptHeld;
    CloseOnce(st.closes, st.place, c, Closed);
    SlotMoves(st.sessions, st.place, s, se, c, Closed);
    ServedMoves(st.sessions, st.place, s, se, c, Closed);
    AcceptMoves(st.accepts, st.place, c, Closed);
    PhaseMoves(st.sessions, s, se);
    TableMoves(st.sessions, st.table, cap, s, se);
  }

  /** The grace period runs out, and then the session leaves the table. */
  lemma LeaveKeeps(st: State, s: nat, se: Session, cap: nat)
    requires Inv(st, cap) && s < |st.sessions| && st.sessions[s].serving in {Waiting, Leaving}
    requires st.sessions[s].pending == None && se.pending == None && se.key == st.sessions[s].key
    requires se.finished && se.serving in {Leaving, Left}
    ensures Inv(st.(sessions := st.sessions[s := se]), cap)
    ensures Inv(st.(table := Erased(st.table, se.key, s), sessions := st.sessions[s := se]), cap)
  {
    StartingMoves(st.sessions, st.accepts, s, se, {});
    assert st.accepts - {} == st.accepts;
    hide TableOk, Phases, SlotHeld, ServedHeld, Starting, AcceptHeld, ClosedOnce, Erased;
    PlacesUntouched(st.sessions, st.place, s, se);
    PhaseMoves(st.sessions, s, se);
    TableMoves(st.sessions, st.table, cap, s, se);
    EraseTable(st.sessions, st.table, cap, s, se);
  }

  /** A session whose handshake could not be answered goes, before anything serves it. */
  lemma ForgetKeeps(st: State, c: Conn, s: nat, cap: nat)
    requires Inv(st, cap) && c in st.accepts && IsNew(st.accepts[c]) && st.accepts[c].session == s
    requires s < |st.sessions| && st.sessions[s].pending == None
    ensures var table := Erased(st.table, st.sessions[s].key, s);
            Inv(Refuse(st.(sessions := st.sessions[s := st.sessions[s].(finished := true)], table := table), c), cap)
  {
    var se := st.sessions[s].(finished := true);
    assert PhaseOk(se);
    StartingMoves(st.sessions, st.accepts, s, se, {c});
    hide TableOk, Phases, SlotHeld, ServedHeld, ClosedOnce, Erased;
    PlacesUntouched(st.sessions, st.place, s, se);
    SessionsUntouched(st.sessions[s := se], st.place, c);
    CloseOnce(st.closes, st.place, c, Closed);
    AcceptMoves(st.accepts, st.place, c, Closed);
    PhaseMoves(st.sessions, s, se);
    EraseTable(st.sessions, st.table, cap, s, se);
  }

  /** A new session goes where there was none, or where a finished one was. */
  lemma NewSession(sessions: seq<Session>, table: map<Key, nat>, key: Key, cap: nat)
    requires TableOk(sessions, table, cap)
    requires if key in table then sessions[table[key]].finished else |table| < cap
    ensures TableOk(sessions + [Session(key, false, None, NotStarted)], table[key := |sessions|], cap)
  {
    var after := sessions + [Session(key, false, None, NotStarted)];
    assert forall t :: 0 <= t < |sessions| ==> after[t] == sessions[t];
    if key in table {
      assert table[key := |sessions|].Keys == table.Keys;
    } else {
      assert table[key := |sessions|].Keys == table.Keys + {key};
    }
  }

  lemma NewSessionHeld(sessions: seq<Session>, place: seq<Place>, key: Key)
    requires SlotHeld(sessions, place) && ServedHeld(sessions, place) && Phases(sessions)
    ensures var after := sessions + [Session(key, false, None, NotStarted)];
            SlotHeld(after, place) && ServedHeld(after, place) && Phases(after)
  {
  }

  lemma LookupKeeps(st: State, c: Conn, key: Key, starting: bool, cap: nat)
    requires Inv(st, cap) && c in st.accepts && st.accepts[c] == Greeting
    ensures Inv(LookedUp(st, c, key, starting, cap), cap)
  {
    assert key in st.table ==> st.table[key] < |st.sessions|;
    hide Phases, SlotHeld, ServedHeld, ClosedOnce, TableOk, Starting, AcceptHeld, Refuse;
    if key in st.table && !st.sessions[st.table[key]].finished {
      StageFound(st, c, st.table[key]);
    } else if !starting || (key !in st.table && |st.table| >= cap) {
      RefuseKeeps(st, c, cap);
    } else {
      NewSession(st.sessions, st.table, key, cap);
      NewSessionHeld(st.sessions, st.place, key);
      StageNew(st, c, key);
    }
  }

  lemma StageFound(st: State, c: Conn, s: nat)
    requires AcceptHeld(st.accepts, st.place) && Starting(st.sessions, st.accepts)
    requires c in st.accepts && s < |st.sessions|
    ensures var accepts := st.accepts[c := Found(s, true)];
            AcceptHeld(accepts, st.place) && Starting(st.sessions, accepts)
  {
  }

  lemma StageNew(st: State, c: Conn, key: Key)
    requires AcceptHeld(st.accepts, st.place) && Starting(st.sessions, st.accepts) && c in st.accepts
    ensures var accepts := st.accepts[c := Found(|st.sessions|, false)];
            && AcceptHeld(accepts, st.place)
            && Starting(st.sessions + [Session(key, false, None, NotStarted)], accepts)
  {
  }

  lemma ForgottenKeeps(st: State, c: Conn, cap: nat)
    requires Inv(st, cap) && c in st.accepts && IsNew(st.accepts[c])
    ensures Inv(Forgotten(st, c, st.accepts[c].session), cap)
  {
    var s := st.accepts[c].session;
    ClosePendingKeeps(st, s, cap);
    hide ClosePending, TableOk, Phases, SlotHeld, ServedHeld, ClosedOnce;
    ForgetKeeps(ClosePending(st, s), c, s, cap);
  }

  lemma HandOverKeeps(st: State, c: Conn, cap: nat)
    requires Inv(st, cap) && c in st.accepts && st.accepts[c].Answered?
    ensures var s := st.accepts[c].session;
            && (st.sessions[s].finished ==> Inv(Refuse(st, c), cap))
            && (!st.sessions[s].finished ==>
                  Inv(PutInSlot(ClosePending(st, s), c, s, st.sessions[s].serving), cap))
            && (IsNew(st.accepts[c]) ==>
                  !st.sessions[s].finished && Inv(PutInSlot(ClosePending(st, s), c, s, Waiting), cap))
  {
    var s := st.accepts[c].session;
    if st.sessions[s].finished {
      RefuseKeeps(st, c, cap);
    } else {
      ClosePendingKeeps(st, s, cap);
      hide ClosePending, PutInSlot;
      PutKeeps(ClosePending(st, s), c, s, st.sessions[s].serving, cap);
      if IsNew(st.accepts[c]) {
        PutKeeps(ClosePending(st, s), c, s, Waiting, cap);
      }
    }
  }

  lemma StepKeeps(st: State, step: Step, cap: nat)
    requires Inv(st, cap) && Enabled(st, step)
    ensures Inv(Apply(st, step, cap), cap)
  {
    hide TableOk, ClosedOnce, Starting, ClosePending, PutInSlot, Refuse, Forgotten, LookedUp, Close, Erased;
    match step
    case Accept => AcceptKeeps(st, cap);
    case Drop(c) => RefuseKeeps(st, c, cap);
    case Lookup(c, key, starting) => LookupKeeps(st, c, key, starting, cap);
    case Answer(c) => AnswerKeeps(st, c, cap);
    case AnswerFails(c) =>
      if st.accepts[c].resumed { RefuseKeeps(st, c, cap); } else { ForgottenKeeps(st, c, cap); }
    case ResendFails(c) => RefuseKeeps(st, c, cap);
    case HandOver(c) => HandOverKeeps(st, c, cap);
    case StartServing(c) => HandOverKeeps(st, c, cap);
    case Take(s) => TakeKeeps(st, s, cap);
    case EndConnection(s) => EndKeeps(st, s, cap);
    case Expire(s) => LeaveKeeps(st, s, st.sessions[s].(finished := true, serving := Leaving), cap);
    case Erase(s) =>
      assert PhaseOk(st.sessions[s]);
      LeaveKeeps(st, s, st.sessions[s].(serving := Left), cap);
  }

  // --- over every run --------------------------------------------------------

  ghost predicate IsRun(states: seq<State>, steps: seq<Step>, cap: nat) {
    && |states| == |steps| + 1
    && states[0] == INIT
    && forall i :: 0 <= i < |steps| ==> Moves(states[i], steps[i], states[i + 1], cap)
  }

  ghost predicate Moves(st: State, step: Step, st': State, cap: nat) {
    Enabled(st, step) && st' == Apply(st, step, cap)
  }

  lemma InitOk(cap: nat)
    ensures Inv(INIT, cap)
  {
  }

  lemma {:induction false} RunInv(states: seq<State>, steps: seq<Step>, cap: nat, n: nat)
    requires IsRun(states, steps, cap) && n < |states|
    ensures Inv(states[n], cap)
  {
    InitOk(cap);
    hide Inv, Enabled, Apply;
    if n > 0 {
      RunInv(states, steps, cap, n - 1);
      assert Moves(states[n - 1], steps[n - 1], states[n], cap);
      StepKeeps(states[n - 1], steps[n - 1], cap);
    }
  }

  /** The connection is held there and nowhere else, or is held nowhere and was closed once. */
  ghost predicate OwnedAt(st: State, c: Conn, p: Place) {
    && (c in st.accepts <==> p == Accepting)
    && (forall s :: 0 <= s < |st.sessions| ==> (st.sessions[s].pending == Some(c) <==> p == InSlot(s)))
    && (forall s :: 0 <= s < |st.sessions| ==> (st.sessions[s].serving == Reading(c) <==> p == Served(s)))
    && c < |st.closes| && st.closes[c] == if p == Closed then 1 else 0
  }

  /** Every connection accepted has exactly one owner until it is closed, and is closed exactly once. */
  lemma OneOwner(states: seq<State>, steps: seq<Step>, cap: nat, n: nat, c: Conn)
    requires IsRun(states, steps, cap) && n < |states| && c < |states[n].place|
    ensures OwnedAt(states[n], c, states[n].place[c])
  {
    RunInv(states, steps, cap, n);
  }

  /** No finished session holds a connection, and the table never outgrows its cap. */
  lemma FinishedHoldNothing(states: seq<State>, steps: seq<Step>, cap: nat, n: nat)
    requires IsRun(states, steps, cap) && n < |states|
    ensures forall s :: 0 <= s < |states[n].sessions| && states[n].sessions[s].finished ==>
      states[n].sessions[s].pending == None && !states[n].sessions[s].serving.Reading?
    ensures |states[n].table| <= cap
  {
    RunInv(states, steps, cap, n);
    assert forall s :: 0 <= s < |states[n].sessions| ==> PhaseOk(states[n].sessions[s]);
  }

  /**
    A session on its way out never takes another out of the table with it: every session that is
    not finished stays there under its key, and there is at most one of them for a key.
   */
  lemma NewerSessionsStay(states: seq<State>, steps: seq<Step>, cap: nat, n: nat, s: nat)
    requires IsRun(states, steps, cap) && n < |states|
    requires s < |states[n].sessions| && !states[n].sessions[s].finished
    ensures var st := states[n]; var key := st.sessions[s].key;
            && key in st.table && st.table[key] == s
            && forall t :: 0 <= t < |st.sessions| && !st.sessions[t].finished && st.sessions[t].key == key ==> t == s
  {
    RunInv(states, steps, cap, n);
  }
}
