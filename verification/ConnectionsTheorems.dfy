/** Where a connection goes: to the session it asked for, over every run. */
module ConnectionsTheorems {
  import opened Wrappers
  import opened Connections
  import opened ConnectionsSteps

  // --- what the lookup finds ------------------------------------------------------

  /** Some session of the key is not finished. */
  ghost predicate Alive(st: State, key: Key) {
    exists s :: 0 <= s < |st.sessions| && st.sessions[s].key == key && !st.sessions[s].finished
  }

  /**
    The answer to a handshake, told from the sessions there are: one that is alive under the key is
    taken back, and no other; otherwise a client that starts gets a session of its own if there is
    room, and whoever does not is closed.
   */
  lemma LookupFinds(states: seq<State>, steps: seq<Step>, cap: nat, n: nat, c: Conn, key: Key, starting: bool)
    requires IsRun(states, steps, cap) && n < |steps| && steps[n] == Lookup(c, key, starting)
    ensures var st, st' := states[n], states[n + 1];
            if Alive(st, key) then
              && c in st'.accepts && st'.accepts[c].Found? && st'.accepts[c].resumed && st'.sessions == st.sessions
              && st'.accepts[c].session < |st.sessions| && st.sessions[st'.accepts[c].session].key == key
              && !st.sessions[st'.accepts[c].session].finished
            else if starting && (key in st.table || |st.table| < cap) then
              && c in st'.accepts && st'.accepts[c] == Found(|st.sessions|, false)
              && st'.sessions == st.sessions + [Session(key, false, None, NotStarted)] && Alive(st', key)
            else c !in st'.accepts && st'.sessions == st.sessions && c < |st'.place| && st'.place[c] == Closed
  {
    RunInv(states, steps, cap, n);
    assert Moves(states[n], steps[n], states[n + 1], cap);
    AliveInTable(states[n], key, cap);
    var st, st' := states[n], states[n + 1];
    hide Alive, Inv;
    if !Alive(st, key) && starting && (key in st.table || |st.table| < cap) {
      NewIsAlive(st.sessions, st', key);
    }
  }

  lemma NewIsAlive(sessions: seq<Session>, st: State, key: Key)
    requires st.sessions == sessions + [Session(key, false, None, NotStarted)]
    ensures Alive(st, key)
  {
    assert st.sessions[|sessions|].key == key;
  }

  lemma AliveInTable(st: State, key: Key, cap: nat)
    requires Inv(st, cap)
    ensures Alive(st, key) <==> key in st.table && !st.sessions[st.table[key]].finished
    ensures forall c :: c in st.accepts ==> c < |st.place|
    ensures key in st.table ==> st.table[key] < |st.sessions| && st.sessions[st.table[key]].key == key
  {
  }

  // --- the session of the key asked for -------------------------------------------

  /** Whoever holds a connection, on its way to a session or there, the session is of the key asked for. */
  ghost predicate KeysOk(st: State, asked: map<Conn, Key>) {
    && (forall c :: c in st.accepts && !st.accepts[c].Greeting? ==>
          c in asked && st.accepts[c].session < |st.sessions| && st.sessions[st.accepts[c].session].key == asked[c])
    && (forall s :: 0 <= s < |st.sessions| && st.sessions[s].pending.Some? ==>
          st.sessions[s].pending.value in asked && asked[st.sessions[s].pending.value] == st.sessions[s].key)
    && (forall s :: 0 <= s < |st.sessions| && st.sessions[s].serving.Reading? ==>
          st.sessions[s].serving.conn in asked && asked[st.sessions[s].serving.conn] == st.sessions[s].key)
  }

  function AskedAfter(asked: map<Conn, Key>, step: Step): map<Conn, Key> {
    if step.Lookup? then asked[step.c := step.key] else asked
  }

  /** The key in the handshake of each connection that has been read. */
  function AllAsked(steps: seq<Step>): map<Conn, Key> {
    if steps == [] then map[] else AskedAfter(AllAsked(steps[..|steps| - 1]), steps[|steps| - 1])
  }

  lemma KeysStep(st: State, step: Step, cap: nat, asked: map<Conn, Key>)
    requires Inv(st, cap) && Enabled(st, step) && KeysOk(st, asked)
    ensures KeysOk(Apply(st, step, cap), AskedAfter(asked, step))
  {
    hide Inv, KeysOk, LookedUp, Refuse, Forgotten, PutInSlot, ClosePending, Close, Moved, Erased;
    match step
    case Accept => KeysAccept(st, asked);
    case Drop(c) => KeysRefuse(st, c, asked);
    case Lookup(c, key, starting) => KeysLookup(st, c, key, starting, cap, asked);
    case Answer(c) => KeysAnswer(st, c, asked);
    case AnswerFails(c) =>
      if st.accepts[c].resumed { KeysRefuse(st, c, asked); } else { KeysForget(st, c, st.accepts[c].session, asked); }
    case ResendFails(c) => KeysRefuse(st, c, asked);
    case HandOver(c) => KeysPut(st, c, st.sessions[st.accepts[c].session].serving, asked); KeysRefuse(st, c, asked);
    case StartServing(c) => KeysPut(st, c, Waiting, asked);
    case Take(s) => KeysTake(st, s, asked);
    case EndConnection(s) => KeysClose(st, st.sessions[s].serving.conn, asked);
      KeysPhase(Close(st, st.sessions[s].serving.conn), s, st.sessions[s].(serving := Waiting), asked);
    case Expire(s) => KeysPhase(st, s, st.sessions[s].(finished := true, serving := Leaving), asked);
    case Erase(s) => KeysErase(st, s, asked);
  }

  lemma KeysAccept(st: State, asked: map<Conn, Key>)
    requires KeysOk(st, asked)
    ensures KeysOk(Apply(st, Accept, 0), asked)
  {
  }

  lemma KeysClose(st: State, c: Conn, asked: map<Conn, Key>)
    requires KeysOk(st, asked)
    ensures KeysOk(Close(st, c), asked) && Close(st, c).sessions == st.sessions
  {
  }

  lemma KeysRefuse(st: State, c: Conn, asked: map<Conn, Key>)
    requires KeysOk(st, asked)
    ensures KeysOk(Refuse(st, c), asked)
  {
  }

  lemma KeysAnswer(st: State, c: Conn, asked: map<Conn, Key>)
    requires KeysOk(st, asked) && c in st.accepts && st.accepts[c].Found?
    ensures KeysOk(st.(accepts := st.accepts[c := Answered(st.accepts[c].session, st.accepts[c].resumed)]), asked)
  {
  }

  /** A session that takes up no connection keeps its key, and so keeps the others'. */
  lemma KeysPhase(st: State, s: nat, to: Session, asked: map<Conn, Key>)
    requires KeysOk(st, asked) && s < |st.sessions| && to.key == st.sessions[s].key
    requires to.pending.Some? ==> to.pending == st.sessions[s].pending
    requires to.serving.Reading? ==> to.serving == st.sessions[s].serving
    ensures KeysOk(st.(sessions := st.sessions[s := to]), asked)
  {
  }

  lemma KeysClosePending(st: State, s: nat, asked: map<Conn, Key>)
    requires KeysOk(st, asked) && s < |st.sessions|
    ensures KeysOk(ClosePending(st, s), asked)
  {
    hide KeysOk;
    if st.sessions[s].pending.Some? {
      KeysClose(st, st.sessions[s].pending.value, asked);
      KeysPhase(Close(st, st.sessions[s].pending.value), s, st.sessions[s].(pending := None), asked);
    }
  }

  lemma KeysForget(st: State, c: Conn, s: nat, asked: map<Conn, Key>)
    requires KeysOk(st, asked) && s < |st.sessions|
    ensures KeysOk(Forgotten(st, c, s), asked)
  {
    KeysClosePending(st, s, asked);
    var a := ClosePending(st, s);
    KeysPhase(a, s, a.sessions[s].(finished := true), asked);
    var b := a.(sessions := a.sessions[s := a.sessions[s].(finished := true)]);
    assert KeysOk(b.(table := Erased(st.table, st.sessions[s].key, s)), asked);
    KeysRefuse(b.(table := Erased(st.table, st.sessions[s].key, s)), c, asked);
    hide KeysOk, Refuse, ClosePending;
  }

  lemma KeysPut(st: State, c: Conn, serving: Serving, asked: map<Conn, Key>)
    requires KeysOk(st, asked) && c in st.accepts && st.accepts[c].Answered? && st.accepts[c].session < |st.sessions|
    requires serving == st.sessions[st.accepts[c].session].serving || serving == Waiting
    ensures KeysOk(PutInSlot(ClosePending(st, st.accepts[c].session), c, st.accepts[c].session, serving), asked)
  {
    KeysClosePending(st, st.accepts[c].session, asked);
  }

  lemma KeysTake(st: State, s: nat, asked: map<Conn, Key>)
    requires KeysOk(st, asked) && Enabled(st, Take(s))
    ensures KeysOk(Apply(st, Take(s), 0), asked)
  {
  }

  lemma KeysErase(st: State, s: nat, asked: map<Conn, Key>)
    requires KeysOk(st, asked) && s < |st.sessions|
    ensures KeysOk(st.(table := Erased(st.table, st.sessions[s].key, s),
                       sessions := st.sessions[s := st.sessions[s].(serving := Left)]), asked)
  {
    KeysPhase(st, s, st.sessions[s].(serving := Left), asked);
  }

  lemma KeysLookup(st: State, c: Conn, key: Key, starting: bool, cap: nat, asked: map<Conn, Key>)
    requires Inv(st, cap) && c in st.accepts && st.accepts[c] == Greeting && KeysOk(st, asked)
    ensures KeysOk(LookedUp(st, c, key, starting, cap), asked[c := key])
  {
    hide Phases, ClosedOnce, Starting;
  }

  lemma {:induction false} RunKeys(states: seq<State>, steps: seq<Step>, cap: nat, n: nat)
    requires IsRun(states, steps, cap) && n < |states|
    ensures KeysOk(states[n], AllAsked(steps[..n]))
  {
    assert KeysOk(INIT, map[]);
    hide Inv, Enabled, Apply, KeysOk;
    if n > 0 {
      RunKeys(states, steps, cap, n - 1);
      RunInv(states, steps, cap, n - 1);
      assert Moves(states[n - 1], steps[n - 1], states[n], cap);
      assert steps[..n][..n - 1] == steps[..n - 1];
      KeysStep(states[n - 1], steps[n - 1], cap, AllAsked(steps[..n - 1]));
    }
  }

  /** A session is only ever given connections whose handshake named its key. */
  lemma OnlyItsOwnConnections(states: seq<State>, steps: seq<Step>, cap: nat, n: nat, s: nat, c: Conn)
    requires IsRun(states, steps, cap) && n < |states| && s < |states[n].sessions|
    requires states[n].sessions[s].pending == Some(c) || states[n].sessions[s].serving == Reading(c)
    ensures c in AllAsked(steps[..n]) && AllAsked(steps[..n])[c] == states[n].sessions[s].key
  {
    RunKeys(states, steps, cap, n);
  }

  /** Handing over gives the connection to its session, in place of any before it, unless the session has finished. */
  lemma HandedToItsSession(states: seq<State>, steps: seq<Step>, cap: nat, n: nat, c: Conn)
    requires IsRun(states, steps, cap) && n < |steps| && (steps[n] == HandOver(c) || steps[n] == StartServing(c))
    ensures c in states[n].accepts && !states[n].accepts[c].Greeting?
    ensures var s := states[n].accepts[c].session; var st, st' := states[n], states[n + 1];
            && s < |st.sessions| && s < |st'.sessions| && c !in st'.accepts && c < |st'.place|
            && if st.sessions[s].finished then st'.place[c] == Closed
               else st'.sessions[s].pending == Some(c) && st'.place[c] == InSlot(s)
                    && st'.sessions[s].serving == if steps[n].StartServing? then Waiting else st.sessions[s].serving
  {
    RunInv(states, steps, cap, n);
    assert Moves(states[n], steps[n], states[n + 1], cap);
  }

  /** A connection that is given up is closed, and a session nobody was told of goes with it. */
  lemma GivenUpIsClosed(states: seq<State>, steps: seq<Step>, cap: nat, n: nat, c: Conn)
    requires IsRun(states, steps, cap) && n < |steps|
    requires steps[n] == Drop(c) || steps[n] == AnswerFails(c) || steps[n] == ResendFails(c)
    ensures c in states[n].accepts && c !in states[n + 1].accepts
    ensures c < |states[n + 1].place| && states[n + 1].place[c] == Closed
    ensures if IsNew(states[n].accepts[c]) then
              var s := states[n].accepts[c].session;
              && s < |states[n + 1].sessions| && states[n + 1].sessions[s].finished
              && OutOf(states[n + 1].table, s)
            else states[n + 1].sessions == states[n].sessions && states[n + 1].table == states[n].table
  {
    RunInv(states, steps, cap, n);
    assert Moves(states[n], steps[n], states[n + 1], cap);
    var st := states[n];
    if IsNew(st.accepts[c]) {
      UnservedGoes(st, c, cap);
    }
    hide Forgotten;
  }

  ghost predicate OutOf(table: map<Key, nat>, s: nat) {
    forall k :: k in table ==> table[k] != s
  }

  lemma ErasedIsOut(sessions: seq<Session>, table: map<Key, nat>, cap: nat, s: nat)
    requires TableOk(sessions, table, cap) && s < |sessions|
    ensures OutOf(Erased(table, sessions[s].key, s), s)
  {
  }

  lemma UnservedGoes(st: State, c: Conn, cap: nat)
    requires Inv(st, cap) && c in st.accepts && IsNew(st.accepts[c])
    ensures st.accepts[c].session < |st.sessions|
    ensures var s := st.accepts[c].session; var st' := Forgotten(st, c, s);
            && s < |st'.sessions| && st'.sessions[s].finished && c !in st'.accepts
            && c < |st'.place| && st'.place[c] == Closed && OutOf(st'.table, s)
  {
    var s := st.accepts[c].session;
    ErasedIsOut(st.sessions, st.table, cap, s);
    assert |ClosePending(st, s).place| == |st.place| && ClosePending(st, s).accepts == st.accepts;
    hide OutOf, Erased, ClosePending, TableOk, SlotHeld, ServedHeld, ClosedOnce, Phases, Starting;
  }

  // --- who is in the table ------------------------------------------------------------

  /** A session in the table is not finished, or is on its way out. */
  ghost predicate NoneLeft(st: State) {
    forall k :: k in st.table ==>
      st.table[k] < |st.sessions| && (st.sessions[st.table[k]].finished ==> st.sessions[st.table[k]].serving == Leaving)
  }

  lemma NoneLeftStep(st: State, step: Step, cap: nat)
    requires Inv(st, cap) && Enabled(st, step) && NoneLeft(st)
    ensures NoneLeft(Apply(st, step, cap))
  {
    hide AcceptHeld, SlotHeld, ServedHeld, ClosedOnce;
    if step.AnswerFails? {
      NoneLeftForgets(st, step.c, cap);
    } else if step.HandOver? || step.StartServing? {
      NoneLeftPut(st, step, cap);
    } else if step.Lookup? {
      NoneLeftLookup(st, step, cap);
    } else {
      hide Forgotten, PutInSlot, ClosePending, LookedUp;
    }
  }

  lemma NoneLeftPut(st: State, step: Step, cap: nat)
    requires Inv(st, cap) && Enabled(st, step) && (step.HandOver? || step.StartServing?) && NoneLeft(st)
    ensures NoneLeft(Apply(st, step, cap))
  {
    hide AcceptHeld, SlotHeld, ServedHeld, ClosedOnce, TableOk;
  }

  lemma NoneLeftLookup(st: State, step: Step, cap: nat)
    requires Inv(st, cap) && Enabled(st, step) && step.Lookup? && NoneLeft(st)
    ensures NoneLeft(Apply(st, step, cap))
  {
    hide Inv;
  }

  lemma NoneLeftForgets(st: State, c: Conn, cap: nat)
    requires Inv(st, cap) && Enabled(st, AnswerFails(c)) && NoneLeft(st)
    ensures NoneLeft(Apply(st, AnswerFails(c), cap))
  {
    hide AcceptHeld, SlotHeld, ServedHeld, ClosedOnce;
  }

  lemma {:induction false} RunNoneLeft(states: seq<State>, steps: seq<Step>, cap: nat, n: nat)
    requires IsRun(states, steps, cap) && n < |states|
    ensures NoneLeft(states[n])
  {
    hide Inv, Enabled, Apply;
    if n > 0 {
      RunNoneLeft(states, steps, cap, n - 1);
      RunInv(states, steps, cap, n - 1);
      assert Moves(states[n - 1], steps[n - 1], states[n], cap);
      NoneLeftStep(states[n - 1], steps[n - 1], cap);
    }
  }

  /** The table holds the sessions that are not finished, and besides them only some that are still on their way out. */
  lemma TableIsTheLiving(states: seq<State>, steps: seq<Step>, cap: nat, n: nat, key: Key)
    requires IsRun(states, steps, cap) && n < |states|
    ensures var st := states[n];
            && (Alive(st, key) ==> key in st.table)
            && (key in st.table ==> st.table[key] < |st.sessions| && st.sessions[st.table[key]].key == key
                                    && (Alive(st, key) || st.sessions[st.table[key]].serving == Leaving))
  {
    RunInv(states, steps, cap, n);
    RunNoneLeft(states, steps, cap, n);
    AliveInTable(states[n], key, cap);
    hide Alive;
  }

  // --- a session from its first connection to its end ------------------------------------

  datatype Outcome = Reached(st: State) | Stuck

  function After(steps: seq<Step>, cap: nat): Outcome {
    if steps == [] then Reached(INIT)
    else
      var before, last := After(steps[..|steps| - 1], cap), steps[|steps| - 1];
      if before.Reached? && Enabled(before.st, last) then Reached(Apply(before.st, last, cap)) else Stuck
  }

  /** The steps can be taken, and lead from the beginning to `st`. */
  predicate Reaches(steps: seq<Step>, cap: nat, st: State) {
    After(steps, cap) == Reached(st)
  }

  lemma Next(steps: seq<Step>, cap: nat, st: State, step: Step, to: State) returns (more: seq<Step>)
    requires Reaches(steps, cap, st) && Enabled(st, step)
    requires var st' := Apply(st, step, cap);
             && st'.sessions == to.sessions && st'.table == to.table && st'.accepts == to.accepts
             && st'.closes == to.closes && st'.place == to.place
    ensures Reaches(more, cap, to) && more == steps + [step]
  {
    hide Enabled, Apply;
    more := steps + [step];
    assert more[..|steps|] == steps;
  }

  /** One session under the key, serving or about to. */
  function Only(key: Key, pending: Option<Conn>, serving: Serving, accepts: map<Conn, Stage>, closes: seq<nat>,
                place: seq<Place>): State {
    State([Session(key, false, pending, serving)], map[key := 0], accepts, closes, place)
  }

  lemma Begins(cap: nat)
    ensures Reaches([], cap, INIT)
  {
  }

  lemma IsMade(key: Key, cap: nat) returns (steps: seq<Step>)
    requires cap >= 1
    ensures Reaches(steps, cap, Only(key, None, NotStarted, map[0 := Answered(0, false)], [0], [Accepting]))
  {
    hide Reaches;
    Begins(cap);
    var s1 := State([], map[], map[0 := Greeting], [0], [Accepting]);
    steps := Next([], cap, INIT, Accept, s1);
    var s2 := Only(key, None, NotStarted, map[0 := Found(0, false)], [0], [Accepting]);
    steps := Next(steps, cap, s1, Lookup(0, key, true), s2);
    var s3 := Only(key, None, NotStarted, map[0 := Answered(0, false)], [0], [Accepting]);
    steps := Next(steps, cap, s2, Answer(0), s3);
  }

  lemma IsServed(before: seq<Step>, key: Key, cap: nat) returns (steps: seq<Step>)
    requires Reaches(before, cap, Only(key, None, NotStarted, map[0 := Answered(0, false)], [0], [Accepting]))
    ensures Reaches(steps, cap, Only(key, None, Waiting, map[], [1], [Closed]))
  {
    hide Reaches;
    var s3 := Only(key, None, NotStarted, map[0 := Answered(0, false)], [0], [Accepting]);
    var s4 := Only(key, Some(0), Waiting, map[], [0], [InSlot(0)]);
    steps := Next(before, cap, s3, StartServing(0), s4);
    var s5 := Only(key, None, Reading(0), map[], [0], [Served(0)]);
    steps := Next(steps, cap, s4, Take(0), s5);
    steps := Next(steps, cap, s5, EndConnection(0), Only(key, None, Waiting, map[], [1], [Closed]));
  }

  lemma IsResumed(before: seq<Step>, key: Key, cap: nat) returns (steps: seq<Step>)
    requires Reaches(before, cap, Only(key, None, Waiting, map[], [1], [Closed]))
    ensures Reaches(steps, cap, Only(key, None, Waiting, map[1 := Answered(0, true)], [1, 0], [Closed, Accepting]))
  {
    hide Reaches;
    var s1 := Only(key, None, Waiting, map[1 := Greeting], [1, 0], [Closed, Accepting]);
    steps := Next(before, cap, Only(key, None, Waiting, map[], [1], [Closed]), Accept, s1);
    var s2 := Only(key, None, Waiting, map[1 := Found(0, true)], [1, 0], [Closed, Accepting]);
    steps := Next(steps, cap, s1, Lookup(1, key, false), s2);
    var s3 := Only(key, None, Waiting, map[1 := Answered(0, true)], [1, 0], [Closed, Accepting]);
    steps := Next(steps, cap, s2, Answer(1), s3);
  }

  lemma IsServedAgain(before: seq<Step>, key: Key, cap: nat) returns (steps: seq<Step>)
    requires Reaches(before, cap, Only(key, None, Waiting, map[1 := Answered(0, true)], [1, 0], [Closed, Accepting]))
    ensures Reaches(steps, cap, Only(key, None, Waiting, map[], [1, 1], [Closed, Closed]))
  {
    hide Reaches;
    var s3 := Only(key, None, Waiting, map[1 := Answered(0, true)], [1, 0], [Closed, Accepting]);
    var s4 := Only(key, Some(1), Waiting, map[], [1, 0], [Closed, InSlot(0)]);
    steps := Next(before, cap, s3, HandOver(1), s4);
    var s5 := Only(key, None, Reading(1), map[], [1, 0], [Closed, Served(0)]);
    steps := Next(steps, cap, s4, Take(0), s5);
    steps := Next(steps, cap, s5, EndConnection(0), Only(key, None, Waiting, map[], [1, 1], [Closed, Closed]));
  }

  /** A session is started, taken back on a second connection, served on both, and at its end out of the table. */
  lemma SessionLives(key: Key, cap: nat) returns (steps: seq<Step>, st: State)
    requires cap >= 1
    ensures Reaches(steps, cap, st) && st.table == map[] && st.closes == [1, 1] && st.accepts == map[]
    ensures |st.sessions| == 1 && st.sessions[0].serving == Left
  {
    hide Reaches;
    steps := IsMade(key, cap);
    steps := IsServed(steps, key, cap);
    steps := IsResumed(steps, key, cap);
    steps := IsServedAgain(steps, key, cap);
    var s1 := Only(key, None, Waiting, map[], [1, 1], [Closed, Closed]);
    var s2 := s1.(sessions := [Session(key, true, None, Leaving)]);
    steps := Next(steps, cap, s1, Expire(0), s2);
    st := s2.(sessions := [Session(key, true, None, Left)], table := map[]);
    steps := Next(steps, cap, s2, Erase(0), st);
  }

  /** A connection that says nothing sensible is closed. */
  lemma NothingSaid(cap: nat) returns (steps: seq<Step>)
    ensures Reaches(steps, cap, INIT.(closes := [1], place := [Closed]))
  {
    hide Reaches;
    Begins(cap);
    var s1 := State([], map[], map[0 := Greeting], [0], [Accepting]);
    steps := Next([], cap, INIT, Accept, s1);
    steps := Next(steps, cap, s1, Drop(0), INIT.(closes := [1], place := [Closed]));
  }

  /** A client that cannot be answered leaves no session behind. */
  lemma UnansweredStart(key: Key, cap: nat) returns (steps: seq<Step>, st: State)
    requires cap >= 1
    ensures Reaches(steps, cap, st) && st.table == map[] && st.closes == [1]
    ensures st.sessions == [Session(key, true, None, NotStarted)]
  {
    hide Reaches;
    Begins(cap);
    var s1 := State([], map[], map[0 := Greeting], [0], [Accepting]);
    steps := Next([], cap, INIT, Accept, s1);
    var s2 := Only(key, None, NotStarted, map[0 := Found(0, false)], [0], [Accepting]);
    steps := Next(steps, cap, s1, Lookup(0, key, true), s2);
    st := State([Session(key, true, None, NotStarted)], map[], map[], [1], [Closed]);
    steps := Next(steps, cap, s2, AnswerFails(0), st);
  }

  /** A client that comes back and cannot be answered, or sent what it missed, leaves the session as it was. */
  lemma UnansweredReturn(key: Key, cap: nat) returns (steps: seq<Step>, more: seq<Step>)
    requires cap >= 1
    ensures Reaches(steps, cap, Only(key, None, Waiting, map[], [1, 1], [Closed, Closed])) && |steps| > 0
    ensures Reaches(more, cap, Only(key, None, Waiting, map[], [1, 1], [Closed, Closed])) && |more| > 0
    ensures steps[|steps| - 1] == ResendFails(1) && more[|more| - 1] == AnswerFails(1)
  {
    hide Reaches;
    var left := Only(key, None, Waiting, map[], [1, 1], [Closed, Closed]);
    steps := IsMade(key, cap);
    steps := IsServed(steps, key, cap);
    var s1 := Only(key, None, Waiting, map[1 := Greeting], [1, 0], [Closed, Accepting]);
    more := Next(steps, cap, Only(key, None, Waiting, map[], [1], [Closed]), Accept, s1);
    var s2 := Only(key, None, Waiting, map[1 := Found(0, true)], [1, 0], [Closed, Accepting]);
    more := Next(more, cap, s1, Lookup(1, key, false), s2);
    more := Next(more, cap, s2, AnswerFails(1), left);
    steps := IsResumed(steps, key, cap);
    var s3 := Only(key, None, Waiting, map[1 := Answered(0, true)], [1, 0], [Closed, Accepting]);
    steps := Next(steps, cap, s3, ResendFails(1), left);
  }
}
