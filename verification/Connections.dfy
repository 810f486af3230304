/**
  Who owns each connection the server accepts, and which sessions are in the table
  (server/main.cpp). Accept threads, one serving thread a session, and the two locks between them:
  a step is what one thread does in one hold of a lock, or between two.
 */
module Connections {
  import opened Wrappers

  type Key = (nat, nat)
  type Conn = nat

  /** The thread that serves a session, from when it is started. */
  datatype Serving =
    | NotStarted
    | Waiting                // for a connection, or for the grace period to run out
    | Reading(conn: Conn)
    | Leaving                // finished, and not yet out of the table
    | Left

  datatype Session = Session(key: Key, finished: bool, pending: Option<Conn>, serving: Serving)

  /** How far an accept thread has got with its connection. */
  datatype Stage =
    | Greeting
    | Found(session: nat, resumed: bool)
    | Answered(session: nat, resumed: bool)

  /** Where a connection is. */
  datatype Place = Accepting | InSlot(session: nat) | Served(session: nat) | Closed

  datatype State = State(
    sessions: seq<Session>,     // every session ever made
    table: map<Key, nat>,       // g_sessions
    accepts: map<Conn, Stage>,  // the accept threads
    closes: seq<nat>,           // how often each connection has been closed
    place: seq<Place>)          // the owner each connection should have

  const INIT := State([], map[], map[], [], [])

  datatype Step =
    | Accept
    | Drop(c: Conn)                                  // no handshake, or one that is not understood
    | Lookup(c: Conn, key: Key, starting: bool)
    | Answer(c: Conn)
    | AnswerFails(c: Conn)
    | ResendFails(c: Conn)
    | HandOver(c: Conn)
    | StartServing(c: Conn)
    | Take(s: nat)
    | EndConnection(s: nat)
    | Expire(s: nat)
    | Erase(s: nat)

  predicate Enabled(st: State, step: Step) {
    match step
    case Accept => true
    case Drop(c) => c in st.accepts && st.accepts[c] == Greeting
    case Lookup(c, _, _) => c in st.accepts && st.accepts[c] == Greeting
    case Answer(c) => c in st.accepts && st.accepts[c].Found?
    case AnswerFails(c) => c in st.accepts && st.accepts[c].Found? && st.accepts[c].session < |st.sessions|
    case ResendFails(c) => c in st.accepts && st.accepts[c].Answered? && st.accepts[c].resumed
    case HandOver(c) =>
      && c in st.accepts && st.accepts[c].Answered? && st.accepts[c].resumed
      && st.accepts[c].session < |st.sessions|
    case StartServing(c) =>
      && c in st.accepts && st.accepts[c].Answered? && !st.accepts[c].resumed
      && st.accepts[c].session < |st.sessions|
    case Take(s) => s < |st.sessions| && st.sessions[s].serving == Waiting && st.sessions[s].pending.Some?
    case EndConnection(s) => s < |st.sessions| && st.sessions[s].serving.Reading?
    case Expire(s) => s < |st.sessions| && st.sessions[s].serving == Waiting && st.sessions[s].pending.None?
    case Erase(s) => s < |st.sessions| && st.sessions[s].serving == Leaving
  }

  function Moved(place: seq<Place>, c: Conn, to: Place): seq<Place> {
    if c < |place| then place[c := to] else place
  }

  /** ::close. */
  function Close(st: State, c: Conn): State {
    st.(closes := if c < |st.closes| then st.closes[c := st.closes[c] + 1] else st.closes,
        place := Moved(st.place, c, Closed))
  }

  /** An accept thread closes its connection and is done. */
  function Refuse(st: State, c: Conn): State {
    Close(st, c).(accepts := st.accepts - {c})
  }

  /** A connection handed over and never taken up is closed. */
  function ClosePending(st: State, s: nat): (r: State)
    requires s < |st.sessions|
    ensures |r.sessions| == |st.sessions|
  {
    var se := st.sessions[s];
    if se.pending.None? then st
    else Close(st, se.pending.value).(sessions := st.sessions[s := se.(pending := None)])
  }

  /** The connection goes from the accept thread into the session's slot, which is empty. */
  function PutInSlot(st: State, c: Conn, s: nat, serving: Serving): State
    requires s < |st.sessions|
  {
    var se := st.sessions[s];
    st.(sessions := st.sessions[s := se.(pending := Some(c), serving := serving)],
        accepts := st.accepts - {c}, place := Moved(st.place, c, InSlot(s)))
  }

  /** The session leaves the table, unless another is there under its key. */
  function Erased(table: map<Key, nat>, key: Key, s: nat): map<Key, nat> {
    if key in table && table[key] == s then table - {key} else table
  }

  /** The lookup, under g_sessions_mu. */
  function LookedUp(st: State, c: Conn, key: Key, starting: bool, cap: nat): State {
    if key in st.table && st.table[key] < |st.sessions| && !st.sessions[st.table[key]].finished then
      st.(accepts := st.accepts[c := Found(st.table[key], true)])
    else if !starting || (key !in st.table && |st.table| >= cap) then
      Refuse(st, c)
    else
      st.(sessions := st.sessions + [Session(key, false, None, NotStarted)],
          table := st.table[key := |st.sessions|],
          accepts := st.accepts[c := Found(|st.sessions|, false)])
  }

  /** forget_unserved, and the close after it. */
  function Forgotten(st: State, c: Conn, s: nat): State
    requires s < |st.sessions|
  {
    var key := st.sessions[s].key;
    var a := ClosePending(st, s);
    Refuse(a.(sessions := a.sessions[s := a.sessions[s].(finished := true)], table := Erased(st.table, key, s)), c)
  }

  function Apply(st: State, step: Step, cap: nat): State
    requires Enabled(st, step)
  {
    match step
    case Accept =>
      st.(accepts := st.accepts[|st.place| := Greeting], closes := st.closes + [0], place := st.place + [Accepting])
    case Drop(c) => Refuse(st, c)
    case Lookup(c, key, starting) => LookedUp(st, c, key, starting, cap)
    case Answer(c) => st.(accepts := st.accepts[c := Answered(st.accepts[c].session, st.accepts[c].resumed)])
    case AnswerFails(c) => if st.accepts[c].resumed then Refuse(st, c) else Forgotten(st, c, st.accepts[c].session)
    case ResendFails(c) => Refuse(st, c)
    case HandOver(c) =>
      var s := st.accepts[c].session;
      if st.sessions[s].finished then Refuse(st, c)
      else PutInSlot(ClosePending(st, s), c, s, st.sessions[s].serving)
    case StartServing(c) =>
      var s := st.accepts[c].session;
      PutInSlot(ClosePending(st, s), c, s, Waiting)
    case Take(s) =>
      var c := st.sessions[s].pending.value;
      st.(sessions := st.sessions[s := st.sessions[s].(pending := None, serving := Reading(c))],
          place := Moved(st.place, c, Served(s)))
    case EndConnection(s) =>
      Close(st, st.sessions[s].serving.conn)
        .(sessions := st.sessions[s := st.sessions[s].(serving := Waiting)])
    case Expire(s) => st.(sessions := st.sessions[s := st.sessions[s].(finished := true, serving := Leaving)])
    case Erase(s) =>
      st.(table := Erased(st.table, st.sessions[s].key, s),
          sessions := st.sessions[s := st.sessions[s].(serving := Left)])
  }

  // --- what every step keeps -------------------------------------------------

  /** The accept threads' connections. */
  ghost predicate AcceptHeld(accepts: map<Conn, Stage>, place: seq<Place>) {
    && (forall c :: c in accepts ==> c < |place| && place[c] == Accepting)
    && (forall c :: 0 <= c < |place| && place[c] == Accepting ==> c in accepts)
  }

  /** The connections in sessions' slots. */
  ghost predicate SlotHeld(sessions: seq<Session>, place: seq<Place>) {
    && (forall s :: 0 <= s < |sessions| && sessions[s].pending.Some? ==>
          sessions[s].pending.value < |place| && place[sessions[s].pending.value] == InSlot(s))
    && (forall c :: 0 <= c < |place| && place[c].InSlot? ==>
          place[c].session < |sessions| && sessions[place[c].session].pending == Some(c))
  }

  /** The connections being served. */
  ghost predicate ServedHeld(sessions: seq<Session>, place: seq<Place>) {
    && (forall s :: 0 <= s < |sessions| && sessions[s].serving.Reading? ==>
          sessions[s].serving.conn < |place| && place[sessions[s].serving.conn] == Served(s))
    && (forall c :: 0 <= c < |place| && place[c].Served? ==>
          place[c].session < |sessions| && sessions[place[c].session].serving == Reading(c))
  }

  /** A connection has been closed once if it is nowhere, and not at all otherwise. */
  ghost predicate ClosedOnce(closes: seq<nat>, place: seq<Place>) {
    && |closes| == |place|
    && forall c :: 0 <= c < |place| ==> closes[c] == if place[c] == Closed then 1 else 0
  }

  /** A session being served is not finished, one that is leaving is, and a finished one holds nothing. */
  ghost predicate PhaseOk(se: Session) {
    && (se.finished ==> se.pending == None)
    && (se.serving == Waiting || se.serving.Reading? ==> !se.finished)
    && (se.serving == Leaving || se.serving == Left ==> se.finished)
  }

  ghost predicate Phases(sessions: seq<Session>) {
    forall s :: 0 <= s < |sessions| ==> PhaseOk(sessions[s])
  }

  predicate IsNew(g: Stage) {
    !g.Greeting? && !g.resumed
  }

  /** A session found new by an accept thread is that thread's to start. */
  ghost predicate Starting(sessions: seq<Session>, accepts: map<Conn, Stage>) {
    && (forall c :: c in accepts && !accepts[c].Greeting? ==> accepts[c].session < |sessions|)
    && (forall c :: c in accepts && IsNew(accepts[c]) ==>
          sessions[accepts[c].session].serving == NotStarted && !sessions[accepts[c].session].finished)
    && (forall c, d :: c in accepts && d in accepts && c != d && IsNew(accepts[c]) && IsNew(accepts[d]) ==>
          accepts[c].session != accepts[d].session)
  }

  /** Every session that is not finished is in the table, under its own key. */
  ghost predicate TableOk(sessions: seq<Session>, table: map<Key, nat>, cap: nat) {
    && |table| <= cap
    && (forall k :: k in table ==> table[k] < |sessions| && sessions[table[k]].key == k)
    && (forall s :: 0 <= s < |sessions| && !sessions[s].finished ==>
          sessions[s].key in table && table[sessions[s].key] == s)
  }

  ghost predicate Inv(st: State, cap: nat) {
    && AcceptHeld(st.accepts, st.place) && SlotHeld(st.sessions, st.place) && ServedHeld(st.sessions, st.place)
    && ClosedOnce(st.closes, st.place) && Phases(st.sessions)
    && Starting(st.sessions, st.accepts) && TableOk(st.sessions, st.table, cap)
  }
}
