/**
  The slots a session keeps for its client's threads, live and recently retired, and the failures
  of calls sent without a reply that wait in them (server/main.cpp).

  `ledger` is the history the program does not keep: every failure ever held, whose it was, and
  what became of it.
 */
module ThreadTable {
  type ThreadId = nat

  // kRetiredSlots
  const RETIRED_SLOTS: nat := 64

  /** A thread's slot: the failure waiting in it (0 for none), and the rest of the thread's state. */
  datatype Slot<T> = Slot(pending: nat, state: T)

  /** What a notice of exited threads holds: it is whole if it has as many ids as it says. */
  predicate WholeNotice(words: seq<nat>) {
    words != [] && words[0] < |words|
  }

  datatype Outcome =
    | Waiting
    | Told(to: ThreadId, own: nat, observed: bool)  // folded into a reply to `to`, whose own result was `own`
    | Lost

  datatype Failure = Failure(thread: ThreadId, code: nat, outcome: Outcome)

  /** The two tables hold the slots of different threads, each once. */
  ghost predicate Disjoint<T>(live: map<ThreadId, Slot<T>>, retired: seq<(ThreadId, Slot<T>)>) {
    && (forall i, j :: 0 <= i < j < |retired| ==> retired[i].0 != retired[j].0)
    && (forall i :: 0 <= i < |retired| ==> retired[i].0 !in live)
  }

  /** `slots` is what the two tables hold between them. */
  ghost predicate View<T>(live: map<ThreadId, Slot<T>>, retired: seq<(ThreadId, Slot<T>)>,
                          slots: map<ThreadId, Slot<T>>) {
    && (forall id :: id in live ==> id in slots && slots[id] == live[id])
    && (forall i :: 0 <= i < |retired| ==> retired[i].0 in slots && slots[retired[i].0] == retired[i].1)
    && (forall id :: id in slots ==> id in live || exists i :: 0 <= i < |retired| && retired[i].0 == id)
  }

  function PendingOf<T>(slots: map<ThreadId, Slot<T>>, id: ThreadId): nat {
    if id in slots then slots[id].pending else 0
  }

  /** The failures waiting are those in the slots: one to a thread, its own, with its code. */
  ghost predicate LedgerOk<T>(ledger: seq<Failure>, slots: map<ThreadId, Slot<T>>) {
    && (forall k :: 0 <= k < |ledger| ==> FailureOk(ledger[k]))
    && (forall k :: 0 <= k < |ledger| && ledger[k].outcome == Waiting ==>
          ledger[k].code == PendingOf(slots, ledger[k].thread))
    && (forall k, l :: 0 <= k < l < |ledger| && ledger[k].outcome == Waiting && ledger[l].outcome == Waiting ==>
          ledger[k].thread != ledger[l].thread)
    && (forall id :: PendingOf(slots, id) != 0 ==> WaitsFor(ledger, id))
  }

  ghost predicate WaitsFor(ledger: seq<Failure>, id: ThreadId) {
    exists k :: 0 <= k < |ledger| && ledger[k].outcome == Waiting && ledger[k].thread == id
  }

  /** A failure reaches its own thread, through a call that succeeded and whose reply is not read as state. */
  ghost predicate FailureOk(f: Failure) {
    && f.code != 0
    && (f.outcome.Told? ==> f.outcome.to == f.thread && f.outcome.own == 0 && !f.outcome.observed)
  }

  /** History goes one way: what became of a failure is settled once. */
  ghost predicate Later(before: seq<Failure>, after: seq<Failure>) {
    && |before| <= |after|
    && forall k :: 0 <= k < |before| ==>
         && after[k].thread == before[k].thread && after[k].code == before[k].code
         && (before[k].outcome != Waiting ==> after[k].outcome == before[k].outcome)
  }

  lemma LaterTrans(a: seq<Failure>, b: seq<Failure>, c: seq<Failure>)
    requires Later(a, b) && Later(b, c)
    ensures Later(a, c)
  {
  }

  // --- counting --------------------------------------------------------------

  function Count(ledger: seq<Failure>, what: Outcome -> bool): nat {
    if ledger == [] then 0
    else
      Count(ledger[..|ledger| - 1], what) + if what(ledger[|ledger| - 1].outcome) then 1 else 0
  }

  function IsWaiting(): Outcome -> bool { (o: Outcome) => o.Waiting? }
  function IsTold(): Outcome -> bool { (o: Outcome) => o.Told? }
  function IsLost(): Outcome -> bool { (o: Outcome) => o.Lost? }

  /** Every failure is told, waiting or lost, and only one of them. */
  lemma {:induction false} OneFate(ledger: seq<Failure>)
    ensures |ledger| == Count(ledger, IsTold()) + Count(ledger, IsWaiting()) + Count(ledger, IsLost())
  {
    if ledger != [] {
      OneFate(ledger[..|ledger| - 1]);
    }
  }

  /** The threads with a failure waiting. */
  ghost function Waiters(ledger: seq<Failure>): set<ThreadId> {
    set k | 0 <= k < |ledger| && ledger[k].outcome == Waiting :: ledger[k].thread
  }

  lemma {:induction false} WaitersCount(ledger: seq<Failure>)
    requires forall k, l :: 0 <= k < l < |ledger| && ledger[k].outcome == Waiting && ledger[l].outcome == Waiting ==>
               ledger[k].thread != ledger[l].thread
    ensures |Waiters(ledger)| == Count(ledger, IsWaiting())
  {
    if ledger != [] {
      var init, last := ledger[..|ledger| - 1], ledger[|ledger| - 1];
      WaitersCount(init);
      WaitersNext(ledger);
      if last.outcome == Waiting {
        assert last.thread !in Waiters(init);
      }
    }
  }

  lemma WaitersNext(ledger: seq<Failure>)
    requires ledger != []
    ensures var init, last := ledger[..|ledger| - 1], ledger[|ledger| - 1];
            Waiters(ledger) == Waiters(init) + if last.outcome == Waiting then {last.thread} else {}
  {
    var init := ledger[..|ledger| - 1];
    forall id ensures id in Waiters(ledger) <==> WaitsFor(ledger, id) {
    }
    forall id ensures id in Waiters(init) <==> WaitsFor(init, id) {
    }
    forall id | WaitsFor(init, id) ensures WaitsFor(ledger, id) {
      var k :| 0 <= k < |init| && init[k].outcome == Waiting && init[k].thread == id;
      assert ledger[k] == init[k];
    }
    forall id | WaitsFor(ledger, id) ensures WaitsFor(init, id) || id == ledger[|init|].thread {
      var k :| 0 <= k < |ledger| && ledger[k].outcome == Waiting && ledger[k].thread == id;
      assert k < |init| ==> init[k] == ledger[k];
    }
  }

  /** The slots, live or retired, with a failure waiting in them. */
  ghost function PendingSlots<T>(slots: map<ThreadId, Slot<T>>): set<ThreadId> {
    set id | id in slots && slots[id].pending != 0
  }

  /** Held is told, waiting in a slot, or lost with its slot: nothing else becomes of a failure. */
  lemma Conservation<T>(ledger: seq<Failure>, slots: map<ThreadId, Slot<T>>)
    requires LedgerOk(ledger, slots)
    ensures |ledger| == Count(ledger, IsTold()) + |PendingSlots(slots)| + Count(ledger, IsLost())
  {
    OneFate(ledger);
    WaitersCount(ledger);
    assert PendingSlots(slots) == Waiters(ledger) by {
      forall id | id in PendingSlots(slots) ensures id in Waiters(ledger) {
        assert PendingOf(slots, id) != 0;
        assert WaitsFor(ledger, id);
      }
      forall k | 0 <= k < |ledger| && ledger[k].outcome == Waiting ensures ledger[k].thread in PendingSlots(slots) {
        assert FailureOk(ledger[k]);
      }
    }
  }

  lemma {:induction false} Smaller(a: set<ThreadId>, b: set<ThreadId>)
    requires a <= b
    ensures |a| <= |b|
  {
    if a != {} {
      var x :| x in a;
      Smaller(a - {x}, b - {x});
    }
  }
}
