/** Admitting, retiring and forgetting client threads, and holding and folding their failures (server/main.cpp). */
module Deferred {
  import opened ThreadTable
  import opened Seats

  // --- the two tables and what they hold between them ------------------------

  lemma Readmitted<T>(live: map<ThreadId, Slot<T>>, retired: seq<(ThreadId, Slot<T>)>,
                      slots: map<ThreadId, Slot<T>>, i: nat)
    requires Disjoint(live, retired) && View(live, retired, slots) && i < |retired|
    ensures var live', retired' := live[retired[i].0 := retired[i].1], retired[..i] + retired[i + 1..];
            Disjoint(live', retired') && View(live', retired', slots)
  {
    var live', retired' := live[retired[i].0 := retired[i].1], retired[..i] + retired[i + 1..];
    assert forall j :: 0 <= j < |retired'| ==> retired'[j] == retired[if j < i then j else j + 1];
    forall id | id in slots ensures id in live' || exists j :: 0 <= j < |retired'| && retired'[j].0 == id {
      if id !in live' {
        var j :| 0 <= j < |retired| && retired[j].0 == id;
        assert retired'[if j < i then j else j - 1].0 == id;
      }
    }
  }

  lemma AdmittedNew<T>(live: map<ThreadId, Slot<T>>, retired: seq<(ThreadId, Slot<T>)>,
                       slots: map<ThreadId, Slot<T>>, id: ThreadId, slot: Slot<T>)
    requires Disjoint(live, retired) && View(live, retired, slots) && id !in slots
    ensures Disjoint(live[id := slot], retired) && View(live[id := slot], retired, slots[id := slot])
    ensures Disjoint(live, retired + [(id, slot)]) && View(live, retired + [(id, slot)], slots[id := slot])
  {
    var retired', slots' := retired + [(id, slot)], slots[id := slot];
    assert forall i :: 0 <= i < |retired| ==> retired[i].0 in slots;
    forall k | k in slots' ensures k in live || exists j :: 0 <= j < |retired'| && retired'[j].0 == k {
      if k == id {
        assert retired'[|retired|].0 == k;
      } else if k !in live {
        var j :| 0 <= j < |retired| && retired[j].0 == k;
        assert retired'[j].0 == k;
      }
    }
  }

  lemma RetiredBack<T>(live: map<ThreadId, Slot<T>>, retired: seq<(ThreadId, Slot<T>)>,
                       slots: map<ThreadId, Slot<T>>, id: ThreadId)
    requires Disjoint(live, retired) && View(live, retired, slots) && id in live
    ensures var live', retired' := live - {id}, retired + [(id, live[id])];
            Disjoint(live', retired') && View(live', retired', slots)
  {
    var live', retired' := live - {id}, retired + [(id, live[id])];
    forall k | k in slots ensures k in live' || exists j :: 0 <= j < |retired'| && retired'[j].0 == k {
      if k == id {
        assert retired'[|retired|].0 == k;
      } else if k !in live {
        var j :| 0 <= j < |retired| && retired[j].0 == k;
        assert retired'[j].0 == k;
      }
    }
  }

  lemma Evicted<T>(live: map<ThreadId, Slot<T>>, retired: seq<(ThreadId, Slot<T>)>, slots: map<ThreadId, Slot<T>>)
    requires Disjoint(live, retired) && View(live, retired, slots) && retired != []
    ensures Disjoint(live, retired[1..]) && View(live, retired[1..], slots - {retired[0].0})
  {
    var retired', slots' := retired[1..], slots - {retired[0].0};
    forall k | k in slots' ensures k in live || exists j :: 0 <= j < |retired'| && retired'[j].0 == k {
      if k !in live {
        var j :| 0 <= j < |retired| && retired[j].0 == k;
        assert retired'[j - 1].0 == k;
      }
    }
  }

  lemma Rewritten<T>(live: map<ThreadId, Slot<T>>, retired: seq<(ThreadId, Slot<T>)>, slots: map<ThreadId, Slot<T>>,
                     i: nat, slot: Slot<T>)
    requires Disjoint(live, retired) && View(live, retired, slots) && i < |retired|
    ensures var id := retired[i].0;
            Disjoint(live, retired[i := (id, slot)]) && View(live, retired[i := (id, slot)], slots[id := slot])
  {
    var id, retired' := retired[i].0, retired[i := (retired[i].0, slot)];
    forall k | k in slots[id := slot] ensures k in live || exists j :: 0 <= j < |retired'| && retired'[j].0 == k {
      if k !in live {
        var j :| 0 <= j < |retired| && retired[j].0 == k;
        assert retired'[j].0 == k;
      }
    }
  }

  // --- the ledger ------------------------------------------------------------

  /** The failure waiting for `id`, if there is one, comes to its end. */
  function Settle(ledger: seq<Failure>, id: ThreadId, outcome: Outcome): (r: seq<Failure>)
    ensures |r| == |ledger|
  {
    seq(|ledger|, k requires 0 <= k < |ledger| =>
      if ledger[k].thread == id && ledger[k].outcome == Waiting then ledger[k].(outcome := outcome) else ledger[k])
  }

  /** The slot's failure is settled when the slot no longer holds it. */
  lemma SettleKeeps<T>(ledger: seq<Failure>, slots: map<ThreadId, Slot<T>>, slots': map<ThreadId, Slot<T>>,
                       id: ThreadId, outcome: Outcome)
    requires LedgerOk(ledger, slots) && PendingOf(slots', id) == 0
    requires forall k :: k != id ==> PendingOf(slots', k) == PendingOf(slots, k)
    requires outcome == Lost || outcome == Told(id, 0, false)
    ensures LedgerOk(Settle(ledger, id, outcome), slots') && Later(ledger, Settle(ledger, id, outcome))
  {
    var after := Settle(ledger, id, outcome);
    forall k | PendingOf(slots', k) != 0 ensures WaitsFor(after, k) {
      assert WaitsFor(ledger, k);
      var j :| 0 <= j < |ledger| && ledger[j].outcome == Waiting && ledger[j].thread == k;
      assert after[j] == ledger[j];
    }
    forall k | 0 <= k < |after| ensures FailureOk(after[k]) {
      assert FailureOk(ledger[k]);
    }
  }

  lemma HoldKeeps<T>(ledger: seq<Failure>, slots: map<ThreadId, Slot<T>>, slots': map<ThreadId, Slot<T>>,
                     id: ThreadId, code: nat)
    requires LedgerOk(ledger, slots) && PendingOf(slots, id) == 0 && PendingOf(slots', id) == code != 0
    requires forall k :: k != id ==> PendingOf(slots', k) == PendingOf(slots, k)
    ensures LedgerOk(ledger + [Failure(id, code, Waiting)], slots')
    ensures Later(ledger, ledger + [Failure(id, code, Waiting)])
  {
    var after := ledger + [Failure(id, code, Waiting)];
    assert forall k :: 0 <= k < |ledger| && ledger[k].outcome == Waiting ==>
      FailureOk(ledger[k]) && ledger[k].code == PendingOf(slots, ledger[k].thread);
    forall k | PendingOf(slots', k) != 0 ensures WaitsFor(after, k) {
      if k == id {
        assert after[|ledger|].thread == id;
      } else {
        assert WaitsFor(ledger, k);
        var j :| 0 <= j < |ledger| && ledger[j].outcome == Waiting && ledger[j].thread == k;
        assert after[j] == ledger[j];
      }
    }
  }

  lemma SameSlots<T>(ledger: seq<Failure>, slots: map<ThreadId, Slot<T>>, slots': map<ThreadId, Slot<T>>)
    requires LedgerOk(ledger, slots) && forall k :: PendingOf(slots', k) == PendingOf(slots, k)
    ensures LedgerOk(ledger, slots')
  {
  }

  lemma CountNext(ledger: seq<Failure>, f: Failure, what: Outcome -> bool)
    ensures Count(ledger + [f], what) == Count(ledger, what) + if what(f.outcome) then 1 else 0
  {
    assert (ledger + [f])[..|ledger|] == ledger;
  }

  /** One failure at most is settled, so one count moves by one at most. */
  lemma {:induction false} SettleCount(ledger: seq<Failure>, id: ThreadId, outcome: Outcome, what: Outcome -> bool)
    requires forall k, l :: 0 <= k < l < |ledger| && ledger[k].outcome == Waiting && ledger[l].outcome == Waiting ==>
               ledger[k].thread != ledger[l].thread
    requires !what(Waiting)
    ensures Count(Settle(ledger, id, outcome), what)
         == Count(ledger, what) + if WaitsFor(ledger, id) && what(outcome) then 1 else 0
  {
    if ledger != [] {
      var init, last := ledger[..|ledger| - 1], ledger[|ledger| - 1];
      assert Settle(ledger, id, outcome)[..|init|] == Settle(init, id, outcome);
      SettleCount(init, id, outcome, what);
      WaitsLast(ledger, id);
    }
  }

  lemma WaitsLast(ledger: seq<Failure>, id: ThreadId)
    requires ledger != []
    requires forall k, l :: 0 <= k < l < |ledger| && ledger[k].outcome == Waiting && ledger[l].outcome == Waiting ==>
               ledger[k].thread != ledger[l].thread
    ensures var init, last := ledger[..|ledger| - 1], ledger[|ledger| - 1];
            var here := last.outcome == Waiting && last.thread == id;
            (WaitsFor(ledger, id) <==> here || WaitsFor(init, id)) && !(here && WaitsFor(init, id))
  {
    var init := ledger[..|ledger| - 1];
    if WaitsFor(ledger, id) {
      var k :| 0 <= k < |ledger| && ledger[k].outcome == Waiting && ledger[k].thread == id;
      assert k < |init| ==> init[k] == ledger[k];
    }
    if WaitsFor(init, id) {
      var k :| 0 <= k < |init| && init[k].outcome == Waiting && init[k].thread == id;
      assert ledger[k] == init[k];
    }
  }

  /** A thread's slot, wherever it is, as far as failures go. */
  lemma PendingFacts<T>(ledger: seq<Failure>, slots: map<ThreadId, Slot<T>>, id: ThreadId)
    requires LedgerOk(ledger, slots)
    ensures WaitsFor(ledger, id) <==> PendingOf(slots, id) != 0
  {
    if WaitsFor(ledger, id) {
      var k :| 0 <= k < |ledger| && ledger[k].outcome == Waiting && ledger[k].thread == id;
      assert FailureOk(ledger[k]);
    }
  }

  /** Forgetting a slot loses the failure in it, if there is one, and no other. */
  lemma ForgetSlot<T>(ledger: seq<Failure>, slots: map<ThreadId, Slot<T>>, id: ThreadId)
    requires LedgerOk(ledger, slots)
    ensures var after := Settle(ledger, id, Lost);
            && LedgerOk(after, slots - {id}) && Later(ledger, after) && OnlyLost(ledger, after)
            && Count(after, IsLost()) == Count(ledger, IsLost()) + if PendingOf(slots, id) != 0 then 1 else 0
  {
    SettleKeeps(ledger, slots, slots - {id}, id, Lost);
    SettleCount(ledger, id, Lost, IsLost());
    PendingFacts(ledger, slots, id);
  }

  // --- what is lost with a slot ------------------------------------------------

  /** A failure of the thread's was lost in between. */
  ghost predicate LostSince(before: seq<Failure>, after: seq<Failure>, id: ThreadId) {
    exists k :: 0 <= k < |after| && after[k].thread == id && after[k].outcome == Lost
                && (k < |before| ==> before[k].outcome != Lost)
  }

  /** Nothing happened in between but the loss of failures that waited. */
  ghost predicate OnlyLost(before: seq<Failure>, after: seq<Failure>) {
    && |before| == |after|
    && forall k :: 0 <= k < |before| ==>
         after[k] == before[k] || (before[k].outcome == Waiting && after[k] == before[k].(outcome := Lost))
  }

  lemma OnlyLostTrans(a: seq<Failure>, b: seq<Failure>, c: seq<Failure>)
    requires OnlyLost(a, b) && OnlyLost(b, c)
    ensures OnlyLost(a, c)
  {
  }

  lemma LostStays(a: seq<Failure>, b: seq<Failure>, c: seq<Failure>, id: ThreadId)
    requires Later(a, b) && Later(b, c) && (LostSince(a, b, id) || LostSince(b, c, id))
    ensures LostSince(a, c, id)
  {
    if LostSince(a, b, id) {
      var k :| 0 <= k < |b| && b[k].thread == id && b[k].outcome == Lost && (k < |a| ==> a[k].outcome != Lost);
      assert c[k].thread == id && c[k].outcome == Lost;
    } else {
      var k :| 0 <= k < |c| && c[k].thread == id && c[k].outcome == Lost && (k < |b| ==> b[k].outcome != Lost);
      assert k < |a| ==> a[k].outcome != Lost;
    }
  }

  lemma WaitedBefore(before: seq<Failure>, after: seq<Failure>, id: ThreadId)
    requires OnlyLost(before, after) && WaitsFor(after, id)
    ensures WaitsFor(before, id)
  {
    var k :| 0 <= k < |after| && after[k].outcome == Waiting && after[k].thread == id;
    assert before[k] == after[k];
  }

  /** What waits for a thread is what waited, unless it was lost. */
  lemma LostOrKept<T>(ledger: seq<Failure>, slots: map<ThreadId, Slot<T>>,
                      ledger': seq<Failure>, slots': map<ThreadId, Slot<T>>, id: ThreadId)
    requires LedgerOk(ledger, slots) && LedgerOk(ledger', slots') && OnlyLost(ledger, ledger')
    ensures PendingOf(slots', id) == if LostSince(ledger, ledger', id) then 0 else PendingOf(slots, id)
    ensures LostSince(ledger, ledger', id) ==> PendingOf(slots, id) != 0
  {
    PendingFacts(ledger, slots, id);
    PendingFacts(ledger', slots', id);
    if WaitsFor(ledger', id) {
      WaitedBefore(ledger, ledger', id);
    }
    if LostSince(ledger, ledger', id) {
      var k :| 0 <= k < |ledger'| && ledger'[k].thread == id && ledger'[k].outcome == Lost
               && (k < |ledger| ==> ledger[k].outcome != Lost);
      assert FailureOk(ledger[k]) && ledger[k].outcome == Waiting;
    } else if PendingOf(slots, id) != 0 {
      assert WaitsFor(ledger, id);
      var k :| 0 <= k < |ledger| && ledger[k].outcome == Waiting && ledger[k].thread == id;
      assert ledger'[k].outcome != Lost;
    }
  }

  /** A failure was lost exactly if the count of lost failures went up. */
  lemma {:induction false} LostCount(before: seq<Failure>, after: seq<Failure>)
    requires Later(before, after)
    ensures Count(before, IsLost()) <= Count(after, IsLost())
    ensures Count(before, IsLost()) == Count(after, IsLost()) <==> forall id :: !LostSince(before, after, id)
    decreases |after|
  {
    if after != [] {
      var init, last := after[..|after| - 1], after[|after| - 1];
      var was := if |before| == |after| then before[..|before| - 1] else before;
      LostCount(was, init);
      var here := last.outcome == Lost && (|before| == |after| ==> before[|after| - 1].outcome != Lost);
      forall id ensures LostSince(before, after, id) <==> LostSince(was, init, id) || (here && last.thread == id) {
        if LostSince(was, init, id) {
          var k :| 0 <= k < |init| && init[k].thread == id && init[k].outcome == Lost
                   && (k < |was| ==> was[k].outcome != Lost);
          assert after[k] == init[k];
        }
        if LostSince(before, after, id) {
          var k :| 0 <= k < |after| && after[k].thread == id && after[k].outcome == Lost
                   && (k < |before| ==> before[k].outcome != Lost);
          assert k < |init| ==> init[k] == after[k];
        }
        if here && last.thread == id {
          assert after[|after| - 1].thread == id;
        }
      }
      if here {
        assert LostSince(before, after, last.thread);
      }
    }
  }

  /** What waits for a thread once a request of its own has completed. */
  function AfterCompletion(pending: nat, result: nat, noReply: bool, observed: bool): nat {
    if noReply then (if pending == 0 then result else pending)
    else if result == 0 && !observed then 0
    else pending
  }

  /** A request: its thread, what the call itself came to, and how its reply is read, if it has one. */
  datatype Request = Request(thread: ThreadId, result: nat, noReply: bool, observed: bool)

  /** The failure a thread has coming, from its own requests alone. */
  function Owed(reqs: seq<Request>, id: ThreadId): nat {
    if reqs == [] then 0
    else
      var q, before := reqs[|reqs| - 1], Owed(reqs[..|reqs| - 1], id);
      if q.thread == id then AfterCompletion(before, q.result, q.noReply, q.observed) else before
  }

  /** What a request is answered with, given what its thread has coming. */
  function Answered(owed: nat, q: Request): nat {
    if !q.noReply && q.result == 0 && !q.observed && owed != 0 then owed else q.result
  }

  /** Requests of other threads make no difference to what a thread has coming. */
  lemma {:induction false} OwedIsOwn(reqs: seq<Request>, id: ThreadId)
    ensures Owed(reqs, id) == Owed(Only(reqs, id), id)
  {
    if reqs != [] {
      var init, q := reqs[..|reqs| - 1], reqs[|reqs| - 1];
      OwedIsOwn(init, id);
      if q.thread == id {
        assert Only(reqs, id)[..|Only(init, id)|] == Only(init, id);
      } else {
        assert Only(reqs, id) == Only(init, id);
      }
    }
  }

  lemma OwedNext(reqs: seq<Request>, i: nat, id: ThreadId)
    requires i < |reqs|
    ensures var q, before := reqs[i], Owed(reqs[..i], id);
            Owed(reqs[..i + 1], id) ==
              if q.thread == id then AfterCompletion(before, q.result, q.noReply, q.observed) else before
  {
    assert reqs[..i + 1][..i] == reqs[..i] && reqs[..i + 1][i] == reqs[i];
  }

  function Only(reqs: seq<Request>, id: ThreadId): seq<Request> {
    if reqs == [] then []
    else
      var q := reqs[|reqs| - 1];
      Only(reqs[..|reqs| - 1], id) + if q.thread == id then [q] else []
  }

  /** What the server is sent: a call, or a notice that threads are gone, which completes like one. */
  datatype Event =
    | Ask(q: Request)
    | Notice(thread: ThreadId, words: seq<nat>, noReply: bool)

  function ThreadOf(e: Event): ThreadId {
    if e.Ask? then e.q.thread else e.thread
  }

  ghost function Threads(events: seq<Event>): set<ThreadId> {
    set e | e in events :: ThreadOf(e)
  }

  /** What the event came to for its own thread: a refused call or notice, and a short notice, failed with 1. */
  function Effective(e: Event, refused: bool): Request {
    match e
    case Ask(q) => if refused then q.(result := 1) else q
    case Notice(id, words, noReply) => Request(id, if id != 0 && WholeNotice(words) then 0 else 1, noReply, false)
  }

  function AllEffective(events: seq<Event>, refused: seq<bool>): (r: seq<Request>)
    requires |refused| <= |events|
    ensures |r| == |refused|
  {
    seq(|refused|, i requires 0 <= i < |refused| => Effective(events[i], refused[i]))
  }

  /** The slots once a home has been found or made; making one past the bound costs the oldest retired. */
  function HomeSlots<T>(slots: map<ThreadId, Slot<T>>, retired: seq<(ThreadId, Slot<T>)>, id: ThreadId,
                        make: bool, blank: T): map<ThreadId, Slot<T>> {
    if id == 0 || id in slots || !make then slots
    else
      (if |retired| == RETIRED_SLOTS then slots - {retired[0].0} else slots)[id := Slot(0, blank)]
  }

  ghost function HomeLedger<T>(ledger: seq<Failure>, slots: map<ThreadId, Slot<T>>,
                               retired: seq<(ThreadId, Slot<T>)>, id: ThreadId, make: bool): seq<Failure> {
    if id == 0 || id in slots || !make || |retired| != RETIRED_SLOTS then ledger
    else Settle(ledger, retired[0].0, Lost)
  }

  /** What completing a request adds to the history: a failure held, or one told, or nothing. */
  function CompletedLedger<T>(ledger: seq<Failure>, slots: map<ThreadId, Slot<T>>, id: ThreadId, result: nat,
                              noReply: bool, observed: bool): seq<Failure> {
    if id !in slots then ledger
    else if noReply && result != 0 && slots[id].pending == 0 then ledger + [Failure(id, result, Waiting)]
    else if !noReply && result == 0 && !observed && slots[id].pending != 0 then
      Settle(ledger, id, Told(id, result, observed))
    else ledger
  }

  /** The two tables. */
  datatype Tables<T> = Tables(live: map<ThreadId, Slot<T>>, retired: seq<(ThreadId, Slot<T>)>)

  /** One thread retired: its slot to the back, unchanged, and the oldest past the bound gone. */
  function RetiredOne<T>(t: Tables<T>, id: ThreadId): Tables<T> {
    if id !in t.live then t
    else
      var back := t.retired + [(id, t.live[id])];
      Tables(t.live - {id}, if |back| > RETIRED_SLOTS then back[1..] else back)
  }

  function RetiredAll<T>(t: Tables<T>, ids: seq<ThreadId>): Tables<T> {
    if ids == [] then t else RetiredOne(RetiredAll(t, ids[..|ids| - 1]), ids[|ids| - 1])
  }

  lemma RetiredNext<T>(t: Tables<T>, ids: seq<ThreadId>, i: nat)
    requires i < |ids|
    ensures RetiredAll(t, ids[..i + 1]) == RetiredOne(RetiredAll(t, ids[..i]), ids[i])
  {
    assert ids[..i + 1][..i] == ids[..i];
  }

  /** Who sits where. */
  function SeatsOf<T>(t: Tables<T>): Seats {
    Seats(t.live.Keys, seq(|t.retired|, i requires 0 <= i < |t.retired| => t.retired[i].0))
  }

  /** The tables seat threads as `Seats` says. */
  lemma {:induction false} RetiredSeats<T>(t: Tables<T>, ids: seq<ThreadId>)
    ensures SeatsOf(RetiredAll(t, ids)) == RetiresAll(SeatsOf(t), ids).0
  {
    if ids != [] {
      RetiredSeats(t, ids[..|ids| - 1]);
      var u, id := RetiredAll(t, ids[..|ids| - 1]), ids[|ids| - 1];
      assert SeatsOf(RetiredOne(u, id)) == Retires(SeatsOf(u), id).0;
    }
  }

  lemma NotSeated<T>(live: map<ThreadId, Slot<T>>, retired: seq<(ThreadId, Slot<T>)>, slots: map<ThreadId, Slot<T>>,
                     id: ThreadId)
    requires View(live, retired, slots) && id !in slots
    ensures id !in live && forall j :: 0 <= j < |retired| ==> retired[j].0 != id
  {
  }

  lemma OneMoreLive<T>(live: map<ThreadId, Slot<T>>, id: ThreadId, slot: Slot<T>)
    requires id !in live
    ensures live[id := slot].Keys == live.Keys + {id} && |live[id := slot]| == |live| + 1
  {
    assert live[id := slot].Keys == live.Keys + {id};
  }

  lemma EmptySlot<T>(ledger: seq<Failure>, slots: map<ThreadId, Slot<T>>, id: ThreadId, blank: T)
    requires LedgerOk(ledger, slots) && id !in slots
    ensures LedgerOk(ledger, slots[id := Slot(0, blank)])
  {
    SameSlots(ledger, slots, slots[id := Slot(0, blank)]);
  }

  lemma LiveSeats<T>(t: Tables<T>, id: ThreadId)
    requires id in t.live
    ensures Admits(SeatsOf(t), id) == SeatsOf(t)
  {
  }

  lemma ReadmittedSeats<T>(t: Tables<T>, i: nat)
    requires i < |t.retired| && t.retired[i].0 !in t.live
    requires forall j :: 0 <= j < i ==> t.retired[j].0 != t.retired[i].0
    ensures var id := t.retired[i].0;
            SeatsOf(Tables(t.live[id := t.retired[i].1], t.retired[..i] + t.retired[i + 1..])) == Admits(SeatsOf(t), id)
  {
    WithoutOne(SeatsOf(t).retired, i);
  }

  lemma AdmittedSeats<T>(t: Tables<T>, id: ThreadId, slot: Slot<T>)
    requires id !in t.live && forall j :: 0 <= j < |t.retired| ==> t.retired[j].0 != id
    ensures SeatsOf(Tables(t.live[id := slot], t.retired)) == Admits(SeatsOf(t), id)
    ensures !Seated(SeatsOf(t), id)
    ensures SeatsOf(Tables(t.live, t.retired + [(id, slot)])) == SeatsOf(t).(retired := SeatsOf(t).retired + [id])
  {
    WithoutNone(SeatsOf(t).retired, id);
  }

  /** What completing a request does to its thread's slot, and to no other. */
  function CompletedSlots<T>(slots: map<ThreadId, Slot<T>>, id: ThreadId, result: nat, noReply: bool,
                             observed: bool): map<ThreadId, Slot<T>> {
    if id !in slots then slots
    else slots[id := slots[id].(pending := AfterCompletion(slots[id].pending, result, noReply, observed))]
  }

  class Table<T> {
    // The state of a thread not seen before.
    const blank: T
    // RGPU_MAX_CLIENT_THREADS
    const maxLive: nat
    var live: map<ThreadId, Slot<T>>
    var retired: seq<(ThreadId, Slot<T>)>
    var heldFailures: nat
    var unreportedFailures: nat
    ghost var slots: map<ThreadId, Slot<T>>
    ghost var ledger: seq<Failure>

    /** What holds while the retired slots have not been trimmed yet. */
    ghost predicate Loose()
      reads this
    {
      && Disjoint(live, retired) && View(live, retired, slots) && LedgerOk(ledger, slots)
      && |live| <= maxLive && 0 !in slots
      && heldFailures == |ledger| && unreportedFailures == Count(ledger, IsLost())
    }

    ghost predicate Valid()
      reads this
    {
      Loose() && |retired| <= RETIRED_SLOTS
    }

    constructor (blank: T, maxLive: nat)
      ensures Valid() && slots == map[] && ledger == [] && this.blank == blank && this.maxLive == maxLive
    {
      this.blank, this.maxLive := blank, maxLive;
      live, retired, heldFailures, unreportedFailures := map[], [], 0, 0;
      slots, ledger := map[], [];
    }

    /** thread_slot and admit_thread: a known thread finds the slot kept for it, wherever it is. */
    method ThreadSlot(id: ThreadId) returns (ok: bool)
      requires Valid() && id != 0
      modifies this`live, this`retired, this`slots
      ensures Valid() && ok == (id in old(live) || |old(live)| < maxLive)
      ensures live.Keys == if ok then old(live).Keys + {id} else old(live).Keys
      ensures !ok ==> live == old(live) && retired == old(retired)
      ensures ok ==> SeatsOf(Tables(live, retired)) == Admits(old(SeatsOf(Tables(live, retired))), id)
      ensures slots == if ok && id !in old(slots) then old(slots)[id := Slot(0, blank)] else old(slots)
    {
      hide LedgerOk, Count, View, Disjoint, SeatsOf, Admits;
      if id in live {
        assert live.Keys + {id} == live.Keys;
        LiveSeats(Tables(live, retired), id);
        LiveKnown(live, retired, slots, id);
        return true;
      }
      if |live| >= maxLive {
        return false;
      }
      var i := IndexOf(live, retired, slots, id);
      if i < |retired| {
        Readmitted(live, retired, slots, i);
        ReadmittedSeats(Tables(live, retired), i);
        live := live[id := retired[i].1];
        retired := retired[..i] + retired[i + 1..];
      } else {
        NewLive(id);
      }
      return true;
    }

    method NewLive(id: ThreadId)
      requires Valid() && id != 0 && id !in slots && |live| < maxLive
      modifies this`live, this`slots
      ensures Valid() && live.Keys == old(live).Keys + {id} && slots == old(slots)[id := Slot(0, blank)]
      ensures SeatsOf(Tables(live, retired)) == Admits(old(SeatsOf(Tables(live, retired))), id)
    {
      hide LedgerOk, Count, SeatsOf, Admits, View, Disjoint, PendingOf;
      NotSeated(live, retired, slots, id);
      AdmittedNew(live, retired, slots, id, Slot(0, blank));
      AdmittedSeats(Tables(live, retired), id, Slot(0, blank));
      EmptySlot(ledger, slots, id, blank);
      OneMoreLive(live, id, Slot(0, blank));
      live := live[id := Slot(0, blank)];
      slots := slots[id := Slot(0, blank)];
    }

    /** trim_retired: the oldest slots go, and with them the failures their threads never learned of. */
    method Trim()
      requires Loose() && |retired| <= RETIRED_SLOTS + 1
      modifies this`retired, this`slots, this`ledger, this`unreportedFailures
      ensures Valid() && Later(old(ledger), ledger) && OnlyLost(old(ledger), ledger)
      ensures |old(retired)| <= RETIRED_SLOTS ==>
        retired == old(retired) && slots == old(slots) && ledger == old(ledger)
      ensures |old(retired)| > RETIRED_SLOTS ==>
        && retired == old(retired)[1..] && slots == old(slots) - {old(retired)[0].0}
        && ledger == Settle(old(ledger), old(retired)[0].0, Lost)
    {
      hide View, Disjoint, LedgerOk, Count, Settle;
      while |retired| > RETIRED_SLOTS
        invariant Loose() && Later(old(ledger), ledger) && OnlyLost(old(ledger), ledger)
        invariant |retired| <= |old(retired)|
        invariant |retired| == |old(retired)| ==>
          retired == old(retired) && slots == old(slots) && ledger == old(ledger)
        invariant |retired| < |old(retired)| ==>
          && |old(retired)| == RETIRED_SLOTS + 1 && retired == old(retired)[1..]
          && slots == old(slots) - {old(retired)[0].0}
          && ledger == Settle(old(ledger), old(retired)[0].0, Lost)
        decreases |retired|
      {
        ForgetOldest();
      }
    }

    /** say_unreported for the oldest retired slot, which then goes. */
    method ForgetOldest()
      requires Loose() && retired != []
      modifies this`retired, this`slots, this`ledger, this`unreportedFailures
      ensures Loose() && Later(old(ledger), ledger) && OnlyLost(old(ledger), ledger) && retired == old(retired)[1..]
      ensures slots == old(slots) - {old(retired)[0].0} && ledger == Settle(old(ledger), old(retired)[0].0, Lost)
    {
      hide View, Disjoint, LedgerOk, Count, Settle, Later;
      var gone := retired[0];
      FrontSlot(live, retired, slots);
      Evicted(live, retired, slots);
      ForgetSlot(ledger, slots, gone.0);
      if gone.1.pending != 0 {
        unreportedFailures := unreportedFailures + 1;
      }
      ledger, slots := Settle(ledger, gone.0, Lost), slots - {gone.0};
      retired := retired[1..];
    }

    /** The same for a live slot, at expiry. */
    method ForgetLive(id: ThreadId)
      requires Loose() && id in live
      modifies this`live, this`slots, this`ledger, this`unreportedFailures
      ensures Loose() && Later(old(ledger), ledger) && live == old(live) - {id} && |live| < |old(live)|
    {
      hide View, Disjoint, LedgerOk, Count, Settle, Later;
      LiveGone(live, retired, slots, id);
      ForgetSlot(ledger, slots, id);
      if live[id].pending != 0 {
        unreportedFailures := unreportedFailures + 1;
      }
      ledger, slots := Settle(ledger, id, Lost), slots - {id};
      live := live - {id};
    }

    /** retire_thread. */
    method Retire(id: ThreadId)
      requires Valid()
      modifies this`live, this`retired, this`slots, this`ledger, this`unreportedFailures
      ensures Valid() && Later(old(ledger), ledger) && OnlyLost(old(ledger), ledger) && live == old(live) - {id}
      ensures Tables(live, retired) == RetiredOne(Tables(old(live), old(retired)), id)
      ensures slots == if id in old(live) && |old(retired)| == RETIRED_SLOTS
                       then old(slots) - {old(retired)[0].0} else old(slots)
      ensures ledger == if id in old(live) && |old(retired)| == RETIRED_SLOTS
                        then Settle(old(ledger), old(retired)[0].0, Lost) else old(ledger)
    {
      hide Count, Settle, LedgerOk, View, Disjoint;
      if id !in live {
        assert live - {id} == live;
        return;
      }
      RetiredBack(live, retired, slots, id);
      retired := retired + [(id, live[id])];
      live := live - {id};
      Trim();
    }

    /** handle_thread_gone: a count and that many ids, all read before any thread is dropped. */
    method ThreadGone(words: seq<nat>) returns (ok: bool)
      requires Valid()
      modifies this`live, this`retired, this`slots, this`ledger, this`unreportedFailures
      ensures Valid() && Later(old(ledger), ledger) && OnlyLost(old(ledger), ledger)
      ensures ok == WholeNotice(words) && slots.Keys <= old(slots).Keys
      ensures !ok ==> live == old(live) && retired == old(retired) && slots == old(slots) && ledger == old(ledger)
      ensures ok ==>
        var ids := words[1..words[0] + 1];
        && live == old(live) - Ids(ids)
        && Tables(live, retired) == RetiredAll(Tables(old(live), old(retired)), ids)
        && SeatsOf(Tables(live, retired)) == RetiresAll(old(SeatsOf(Tables(live, retired))), ids).0
      ensures |old(slots)| <= RETIRED_SLOTS ==> slots == old(slots) && ledger == old(ledger)
    {
      hide LedgerOk, Count, Settle, View, Disjoint, Later, OnlyLost, Ids, RetiredOne;
      LaterSame(ledger);
      if words == [] || words[0] >= |words| {
        return false;
      }
      var ids := words[1..words[0] + 1];
      DropNone(live, ids);
      for i := 0 to |ids|
        invariant Valid() && Later(old(ledger), ledger) && OnlyLost(old(ledger), ledger)
        invariant live == old(live) - Ids(ids[..i]) && slots.Keys <= old(slots).Keys
        invariant Tables(live, retired) == RetiredAll(Tables(old(live), old(retired)), ids[..i])
        invariant |old(slots)| <= RETIRED_SLOTS ==> slots == old(slots) && ledger == old(ledger)
      {
        ghost var was := ledger;
        RetiredCount(live, retired, slots);
        RetiredNext(Tables(old(live), old(retired)), ids, i);
        Retire(ids[i]);
        LaterTrans(old(ledger), was, ledger);
        OnlyLostTrans(old(ledger), was, ledger);
        DropNext(old(live), ids, i);
      }
      assert ids[..|ids|] == ids;
      RetiredSeats(Tables(old(live), old(retired)), ids);
      return true;
    }

    /** deferred_home: the slot of a thread that was given none, made in the retired set if it must be. */
    method DeferredHome(id: ThreadId, make: bool) returns (found: bool)
      requires Valid()
      modifies this`retired, this`slots, this`ledger, this`unreportedFailures
      ensures Valid() && Later(old(ledger), ledger) && OnlyLost(old(ledger), ledger)
      ensures found == (id != 0 && (id in old(slots) || make)) && (found ==> id in slots)
      ensures slots == HomeSlots(old(slots), old(retired), id, make, blank)
      ensures ledger == HomeLedger(old(ledger), old(slots), old(retired), id, make)
      ensures found && make ==> SeatsOf(Tables(live, retired)) == Parks(old(SeatsOf(Tables(live, retired))), id).0
    {
      hide LedgerOk, Count, Settle, View, Disjoint;
      if id == 0 {
        return false;
      }
      LiveKnown(live, retired, slots, id);
      if id in live {
        return true;
      }
      var i := IndexOf(live, retired, slots, id);
      if i < |retired| || !make {
        assert i < |retired| ==> SeatsOf(Tables(live, retired)).retired[i] == id;
        return i < |retired|;
      }
      AdmittedSeats(Tables(live, retired), id, Slot(0, blank));
      AdmittedNew(live, retired, slots, id, Slot(0, blank));
      EmptySlot(ledger, slots, id, blank);
      retired := retired + [(id, Slot(0, blank))];
      slots := slots[id := Slot(0, blank)];
      Trim();
      assert slots == HomeSlots(old(slots), old(retired), id, make, blank);
      return true;
    }

    /**
      A request completed: `given` says its thread had been given a live slot. A failure with no
      reply to carry it is held if none is; a reply that succeeded carries one that is.
     */
    method Complete(id: ThreadId, given: bool, result: nat, noReply: bool, observed: bool) returns (reply: nat)
      requires Valid() && (given ==> id in live)
      modifies this`live, this`retired, this`slots, this`ledger, this`heldFailures, this`unreportedFailures
      ensures Valid() && Later(old(ledger), ledger) && live.Keys == old(live).Keys
      ensures reply == if !noReply && result == 0 && !observed && PendingOf(old(slots), id) != 0
                       then PendingOf(old(slots), id) else result
      ensures var home := if given || (noReply && result == 0) then old(slots)
                          else HomeSlots(old(slots), old(retired), id, noReply, blank);
              && slots == CompletedSlots(home, id, result, noReply, observed)
              && var was := if given || (noReply && result == 0) then old(ledger)
                            else HomeLedger(old(ledger), old(slots), old(retired), id, noReply);
                 && ledger == CompletedLedger(was, home, id, result, noReply, observed)
                 && LedgerOk(was, home) && OnlyLost(old(ledger), was)
      ensures !given && noReply && result == 0 ==> live == old(live) && retired == old(retired)
    {
      hide LedgerOk, Count, Settle, Disjoint, OnlyLost, SeatsOf, Parks, View;
      LaterSame(ledger);
      LiveKnown(live, retired, slots, id);
      UnchangedSlot(slots, id);
      reply := result;
      var home := given;
      if !home && (!noReply || result != 0) {
        home := DeferredHome(id, noReply);
        UnchangedSlot(slots, id);
      }
      if !home {
        return;
      }
      if noReply && result != 0 {
        Hold(id, result);
      } else if !noReply && result == 0 && !observed {
        reply := Fold(id, result, observed);
      }
    }

    method Hold(id: ThreadId, result: nat)
      requires Valid() && id in slots && result != 0
      modifies this`live, this`retired, this`slots, this`ledger, this`heldFailures
      ensures Valid() && Later(old(ledger), ledger)
      ensures slots == CompletedSlots(old(slots), id, result, true, false) && live.Keys == old(live).Keys
      ensures ledger == if PendingOf(old(slots), id) == 0 then old(ledger) + [Failure(id, result, Waiting)]
                        else old(ledger)
    {
      hide LedgerOk, View, Disjoint, Settle, Count;
      UnchangedSlot(slots, id);
      var pending := PendingIn(live, retired, slots, id);
      if pending == 0 {
        live, retired := WithPending(live, retired, slots, id, result);
        ghost var slots' := slots[id := slots[id].(pending := result)];
        HoldKeeps(ledger, slots, slots', id, result);
        CountNext(ledger, Failure(id, result, Waiting), IsLost());
        ledger, slots := ledger + [Failure(id, result, Waiting)], slots';
        heldFailures := heldFailures + 1;
      }
    }

    method Fold(id: ThreadId, ghost own: nat, ghost observed: bool) returns (reply: nat)
      requires Valid() && id in slots && own == 0 && !observed
      modifies this`live, this`retired, this`slots, this`ledger
      ensures Valid() && Later(old(ledger), ledger) && reply == PendingOf(old(slots), id)
      ensures slots == CompletedSlots(old(slots), id, own, false, observed) && live.Keys == old(live).Keys
      ensures ledger == if reply == 0 then old(ledger) else Settle(old(ledger), id, Told(id, own, observed))
    {
      hide LedgerOk, View, Disjoint, Settle, Count;
      UnchangedSlot(slots, id);
      reply := PendingIn(live, retired, slots, id);
      if reply != 0 {
        live, retired := WithPending(live, retired, slots, id, 0);
        ghost var slots' := slots[id := slots[id].(pending := 0)];
        SettleKeeps(ledger, slots, slots', id, Told(id, own, observed));
        assert LedgerDistinct(ledger) by { DistinctWaits(ledger, slots); }
        SettleCount(ledger, id, Told(id, own, observed), IsLost());
        ledger, slots := Settle(ledger, id, Told(id, own, observed)), slots';
      }
    }

    /** The session expires: what still waits is unreported, and every failure's fate is settled. */
    method Expire()
      requires Valid()
      modifies this`live, this`retired, this`slots, this`ledger, this`unreportedFailures
      ensures Valid() && Later(old(ledger), ledger) && live == map[] && retired == [] && slots == map[]
      ensures heldFailures == Count(ledger, IsTold()) + unreportedFailures
    {
      hide LedgerOk, Count, Settle, View, Disjoint, Later;
      LaterSame(ledger);
      while live.Keys != {}
        invariant Valid() && Later(old(ledger), ledger)
        decreases |live|
      {
        var id :| id in live.Keys;
        ghost var was := ledger;
        ForgetLive(id);
        LaterTrans(old(ledger), was, ledger);
      }
      while retired != []
        invariant Valid() && Later(old(ledger), ledger) && live.Keys == {}
        decreases |retired|
      {
        ghost var was := ledger;
        ForgetOldest();
        LaterTrans(old(ledger), was, ledger);
      }
      NothingLeft(live, retired, slots);
      Conservation(ledger, slots);
    }

    /** One call, from finding its thread's slot to its completion; past the cap it is refused with 1. */
    method Serve(q: Request) returns (reply: nat, refused: bool)
      requires Valid()
      modifies this`live, this`retired, this`slots, this`ledger, this`heldFailures, this`unreportedFailures
      ensures Valid() && Later(old(ledger), ledger)
      ensures refused <==> q.thread == 0 || (q.thread !in old(live) && |old(live)| >= maxLive)
      ensures live.Keys == if refused then old(live).Keys else old(live).Keys + {q.thread}
      ensures reply == Answered(PendingOf(old(slots), q.thread), Effective(Ask(q), refused))
      ensures slots.Keys <= old(slots).Keys + {q.thread}
      ensures OwnUnlessLost(old(ledger), old(slots), ledger, slots, reply, Effective(Ask(q), refused))
      ensures unreportedFailures == old(unreportedFailures) <==> MovesOn(old(slots), slots, Effective(Ask(q), refused))
      ensures !refused || q.thread == 0 || q.thread in old(slots) || |old(retired)| < RETIRED_SLOTS ==>
        unreportedFailures == old(unreportedFailures)
    {
      hide View, Disjoint, LedgerOk, Count, Later, HomeSlots, CompletedSlots, HomeLedger, CompletedLedger, SeatsOf;
      hide AfterCompletion, MovesOn, OwnUnlessLost, OnlyLost;
      var given := false;
      SameMoves(slots, slots, q.thread, blank);
      if q.thread != 0 {
        given := ThreadSlot(q.thread);
        LiveKnown(live, retired, slots, q.thread);
        SameMoves(old(slots), slots, q.thread, blank);
      }
      // CUDA_ERROR_INVALID_VALUE
      var result := if given then q.result else 1;
      ghost var mid, aside := slots, retired;
      reply := Complete(q.thread, given, result, q.noReply, q.observed);
      refused := !given;
      ghost var e := Effective(Ask(q), refused);
      ghost var home := HomeOf(mid, aside, e, given, blank);
      ghost var was := LedgerOf(old(ledger), mid, aside, e, given);
      HomeFacts(old(ledger), old(slots), mid, aside, e, given, blank);
      Completed(old(ledger), old(slots), was, home, ledger, slots, reply, e);
    }

    /** A notice: the threads it names are retired, and it completes without a slot of its own. */
    method ServeNotice(id: ThreadId, words: seq<nat>, noReply: bool) returns (reply: nat)
      requires Valid()
      modifies this`live, this`retired, this`slots, this`ledger, this`heldFailures, this`unreportedFailures
      ensures Valid() && Later(old(ledger), ledger)
      ensures slots.Keys <= old(slots).Keys + {id} && live.Keys <= old(live).Keys
      ensures OwnUnlessLost(old(ledger), old(slots), ledger, slots, reply, Effective(Notice(id, words, noReply), false))
      ensures unreportedFailures == old(unreportedFailures) <==>
        AsOwn(old(slots), slots, reply, Effective(Notice(id, words, noReply), false))
      ensures |old(slots)| <= RETIRED_SLOTS && (id == 0 || id in old(slots) || |old(slots)| < RETIRED_SLOTS) ==>
        unreportedFailures == old(unreportedFailures)
      ensures id != 0 && WholeNotice(words) && noReply ==>
        Tables(live, retired) == RetiredAll(Tables(old(live), old(retired)), words[1..words[0] + 1])
    {
      hide View, Disjoint, LedgerOk, Count, Later, Ids, RetiredAll;
      hide HomeSlots, CompletedSlots, HomeLedger, CompletedLedger, AfterCompletion, MovesOn;
      hide OwnUnlessLost, OnlyLost, AsOwn;
      var ok := false;
      LaterSame(ledger);
      if id != 0 {
        ok := ThreadGone(words);
      }
      RetiredCount(live, retired, slots);
      ghost var gone, mid, aside := ledger, slots, retired;
      reply := Complete(id, false, if ok then 0 else 1, noReply, false);
      LaterTrans(old(ledger), gone, ledger);
      ghost var e := Effective(Notice(id, words, noReply), false);
      ghost var home := HomeOf(mid, aside, e, false, blank);
      ghost var was := LedgerOf(gone, mid, aside, e, false);
      HomeFacts(gone, mid, mid, aside, e, false, blank);
      OnlyLostTrans(old(ledger), gone, was);
      Completed(old(ledger), old(slots), was, home, ledger, slots, reply, e);
    }

    /** One event; the tables are said to have room for the threads `ids`, if they do. */
    method ServeEvent(e: Event, ghost ids: set<ThreadId>) returns (reply: nat, refused: bool)
      requires Valid() && slots.Keys <= ids && live.Keys <= ids && (ThreadOf(e) == 0 || ThreadOf(e) in ids)
      modifies this`live, this`retired, this`slots, this`ledger, this`heldFailures, this`unreportedFailures
      ensures Valid() && slots.Keys <= ids && live.Keys <= ids && Later(old(ledger), ledger)
      ensures OwnUnlessLost(old(ledger), old(slots), ledger, slots, reply, Effective(e, refused))
      ensures unreportedFailures == old(unreportedFailures) <==>
        AsOwn(old(slots), slots, reply, Effective(e, refused))
      ensures |ids| <= RETIRED_SLOTS || (|ids| <= maxLive && e.Ask?) ==>
        unreportedFailures == old(unreportedFailures)
      ensures |ids| <= maxLive && e.Ask? ==> (refused <==> e.q.thread == 0)
    {
      hide View, Disjoint, LedgerOk, Count, Later, Answered, MovesOn, Effective, OwnUnlessLost;
      RoomFor(live, slots, ids, ThreadOf(e), maxLive);
      RetiredCount(live, retired, slots);
      NoThread(slots, ids);
      refused := false;
      match e {
        case Ask(q) =>
          reply, refused := Serve(q);
          assert Effective(e, refused).thread == q.thread by { EffectiveThread(e, refused); }
        case Notice(id, words, noReply) =>
          reply := ServeNotice(id, words, noReply);
      }
      LiveWithin(live, retired, slots);
      NoThread(slots, ids);
    }

    /**
      Any interleaving of calls, refusals at the cap and notices, of any number of threads: every
      reply to a thread that has lost no failure is what its thread's own requests make it, so a
      failure reaches the thread that caused it and no other. Failures are lost only with a slot
      pushed out of the retired set, each is counted, and none is where the threads fit.
     */
    method ServeAll(events: seq<Event>) returns (replies: seq<nat>, refused: seq<bool>)
      requires Valid() && slots == map[] && live == map[]
      modifies this`live, this`retired, this`slots, this`ledger, this`heldFailures, this`unreportedFailures
      ensures Valid() && |refused| == |events| == |replies| && Later(old(ledger), ledger)
      ensures forall i :: 0 <= i < |events| && !LostSince(old(ledger), ledger, ThreadOf(events[i])) ==>
        AnsweredAt(events, refused, replies, i)
      ensures unreportedFailures == old(unreportedFailures) ==> AnsweredAll(events, refused, replies)
      ensures heldFailures == Count(ledger, IsTold()) + |PendingSlots(slots)| + unreportedFailures
      ensures var ids := Threads(events) - {0};
              |ids| <= RETIRED_SLOTS || (|ids| <= maxLive && forall e :: e in events ==> e.Ask?) ==>
                unreportedFailures == old(unreportedFailures)
      ensures |Threads(events) - {0}| <= maxLive ==>
        forall i :: 0 <= i < |events| && events[i].Ask? ==> (refused[i] <==> events[i].q.thread == 0)
    {
      hide View, Disjoint, LedgerOk, Count, Later, Answered, Follows, MovesOn, AllEffective, Effective;
      hide OwnUnlessLost, AsOwn, LostSince, AnsweredAt, Threads;
      replies, refused := [], [];
      ghost var ids := Threads(events) - {0};
      LaterSame(ledger);
      FollowsNone(events, slots, ledger);
      for i := 0 to |events|
        invariant Valid() && |refused| == |replies| == i && slots.Keys <= ids && live.Keys <= ids
        invariant Later(old(ledger), ledger)
        invariant Follows(slots, AllEffective(events, refused), old(ledger), ledger)
        invariant forall j :: 0 <= j < i && !LostSince(old(ledger), ledger, ThreadOf(events[j])) ==>
          AnsweredAt(events, refused, replies, j)
        invariant |ids| <= RETIRED_SLOTS || (|ids| <= maxLive && forall e :: e in events ==> e.Ask?) ==>
          unreportedFailures == old(unreportedFailures)
        invariant |ids| <= maxLive ==>
          forall j :: 0 <= j < i && events[j].Ask? ==> (refused[j] <==> events[j].q.thread == 0)
      {
        var e := events[i];
        InThreads(events, e);
        ghost var was, known := slots, ledger;
        var r, not := ServeEvent(e, ids);
        LaterTrans(old(ledger), known, ledger);
        AnsweredNext(events, refused, replies, was, old(ledger), known, slots, ledger, r, not);
        replies, refused := replies + [r], refused + [not];
      }
      Conservation(ledger, slots);
      LostCount(old(ledger), ledger);
    }
  }

  lemma UnchangedSlot<T>(slots: map<ThreadId, Slot<T>>, id: ThreadId)
    ensures id in slots ==> slots[id := slots[id].(pending := slots[id].pending)] == slots
  {
  }

  lemma FrontSlot<T>(live: map<ThreadId, Slot<T>>, retired: seq<(ThreadId, Slot<T>)>, slots: map<ThreadId, Slot<T>>)
    requires View(live, retired, slots) && retired != []
    ensures PendingOf(slots, retired[0].0) == retired[0].1.pending
  {
  }

  function Ids(ids: seq<ThreadId>): set<ThreadId> {
    set id | id in ids
  }

  ghost predicate LedgerDistinct(ledger: seq<Failure>) {
    forall k, l :: 0 <= k < l < |ledger| && ledger[k].outcome == Waiting && ledger[l].outcome == Waiting ==>
      ledger[k].thread != ledger[l].thread
  }

  lemma DistinctWaits<T>(ledger: seq<Failure>, slots: map<ThreadId, Slot<T>>)
    requires LedgerOk(ledger, slots)
    ensures LedgerDistinct(ledger)
  {
  }

  /** The scan of the retired slots for a thread that is not live. */
  method IndexOf<T>(live: map<ThreadId, Slot<T>>, retired: seq<(ThreadId, Slot<T>)>,
                    ghost slots: map<ThreadId, Slot<T>>, id: ThreadId)
    returns (i: nat)
    requires View(live, retired, slots) && id !in live
    ensures i <= |retired| && (i < |retired| <==> id in slots)
    ensures i < |retired| ==> retired[i].0 == id && retired[i].1 == slots[id]
    ensures forall j :: 0 <= j < i ==> retired[j].0 != id
  {
    i := 0;
    while i < |retired| && retired[i].0 != id
      invariant i <= |retired| && forall j :: 0 <= j < i ==> retired[j].0 != id
    {
      i := i + 1;
    }
  }

  /** What waits in a thread's slot, wherever it is. */
  method PendingIn<T>(live: map<ThreadId, Slot<T>>, retired: seq<(ThreadId, Slot<T>)>,
                      ghost slots: map<ThreadId, Slot<T>>, id: ThreadId)
    returns (pending: nat)
    requires View(live, retired, slots) && id in slots
    ensures pending == slots[id].pending
  {
    if id in live {
      return live[id].pending;
    }
    var i := IndexOf(live, retired, slots, id);
    return retired[i].1.pending;
  }

  /** The thread's slot, wherever it is, with another failure or none waiting in it. */
  method WithPending<T>(live: map<ThreadId, Slot<T>>, retired: seq<(ThreadId, Slot<T>)>,
                        ghost slots: map<ThreadId, Slot<T>>, id: ThreadId, code: nat)
    returns (live': map<ThreadId, Slot<T>>, retired': seq<(ThreadId, Slot<T>)>)
    requires Disjoint(live, retired) && View(live, retired, slots) && id in slots
    ensures Disjoint(live', retired') && View(live', retired', slots[id := slots[id].(pending := code)])
    ensures live'.Keys == live.Keys && |retired'| == |retired| && |live'| == |live|
  {
    live', retired' := live, retired;
    if id in live {
      live' := live[id := live[id].(pending := code)];
      assert |live'.Keys| == |live.Keys|;
      return;
    }
    var i := IndexOf(live, retired, slots, id);
    Rewritten(live, retired, slots, i, retired[i].1.(pending := code));
    retired' := retired[i := (id, retired[i].1.(pending := code))];
  }

  lemma LaterSame(ledger: seq<Failure>)
    ensures Later(ledger, ledger) && OnlyLost(ledger, ledger)
  {
  }

  lemma DropNone<T>(live: map<ThreadId, Slot<T>>, ids: seq<ThreadId>)
    ensures live - Ids(ids[..0]) == live
  {
  }

  lemma DropNext<T>(live: map<ThreadId, Slot<T>>, ids: seq<ThreadId>, i: nat)
    requires i < |ids|
    ensures live - Ids(ids[..i]) - {ids[i]} == live - Ids(ids[..i + 1])
  {
    assert ids[..i + 1] == ids[..i] + [ids[i]];
  }

  lemma LiveGone<T>(live: map<ThreadId, Slot<T>>, retired: seq<(ThreadId, Slot<T>)>, slots: map<ThreadId, Slot<T>>,
                    id: ThreadId)
    requires Disjoint(live, retired) && View(live, retired, slots) && id in live
    ensures Disjoint(live - {id}, retired) && View(live - {id}, retired, slots - {id})
    ensures PendingOf(slots, id) == live[id].pending && |live - {id}| == |live| - 1
  {
    assert (live - {id}).Keys == live.Keys - {id};
  }

  lemma NothingLeft<T>(live: map<ThreadId, Slot<T>>, retired: seq<(ThreadId, Slot<T>)>, slots: map<ThreadId, Slot<T>>)
    requires View(live, retired, slots) && live.Keys == {} && retired == []
    ensures slots == map[] && live == map[] && |PendingSlots(slots)| == 0
  {
    assert slots.Keys == {};
    assert PendingSlots(slots) == {};
  }

  lemma LiveKnown<T>(live: map<ThreadId, Slot<T>>, retired: seq<(ThreadId, Slot<T>)>, slots: map<ThreadId, Slot<T>>,
                     id: ThreadId)
    requires View(live, retired, slots)
    ensures id in live ==> id in slots
  {
  }

  /** A thread that may come is live, or there is room for it; and so for its slot. */
  lemma RoomFor<T>(live: map<ThreadId, Slot<T>>, slots: map<ThreadId, Slot<T>>, ids: set<ThreadId>, id: ThreadId,
                   cap: nat)
    requires live.Keys <= ids && slots.Keys <= ids && (id == 0 || id in ids)
    ensures id != 0 && |ids| <= cap ==> id in live || |live| < cap
    ensures |slots| <= |ids| && (id != 0 ==> id in slots || |slots| < |ids|)
  {
    Smaller(live.Keys, ids);
    Smaller(slots.Keys, ids);
    if id != 0 {
      Smaller(live.Keys + {id}, ids);
      Smaller(slots.Keys + {id}, ids);
      assert id !in live ==> |live.Keys + {id}| == |live.Keys| + 1;
      assert id !in slots ==> |slots.Keys + {id}| == |slots.Keys| + 1;
    }
  }

  /** Being admitted changes nothing that waits. */
  lemma SameMoves<T>(slots: map<ThreadId, Slot<T>>, slots': map<ThreadId, Slot<T>>, id: ThreadId, blank: T)
    requires slots' == slots || (id !in slots && slots' == slots[id := Slot(0, blank)])
    ensures forall k :: PendingOf(slots', k) == PendingOf(slots, k)
    ensures slots'.Keys <= slots.Keys + {id}
  {
  }

  /** The slots and the history once the request has a home, or needs none. */
  function HomeOf<T>(slots: map<ThreadId, Slot<T>>, retired: seq<(ThreadId, Slot<T>)>, q: Request, given: bool,
                     blank: T): map<ThreadId, Slot<T>> {
    if given || (q.noReply && q.result == 0) then slots else HomeSlots(slots, retired, q.thread, q.noReply, blank)
  }

  ghost function LedgerOf<T>(ledger: seq<Failure>, slots: map<ThreadId, Slot<T>>,
                             retired: seq<(ThreadId, Slot<T>)>, q: Request, given: bool): seq<Failure> {
    if given || (q.noReply && q.result == 0) then ledger
    else HomeLedger(ledger, slots, retired, q.thread, q.noReply)
  }

  /** Finding a home changes nothing of the request's own thread, and makes a slot if one is needed. */
  lemma HomeFacts<T>(ledger: seq<Failure>, before: map<ThreadId, Slot<T>>, slots: map<ThreadId, Slot<T>>,
                     retired: seq<(ThreadId, Slot<T>)>, q: Request, given: bool, blank: T)
    requires 0 !in slots && (given ==> q.thread in slots) && slots.Keys <= before.Keys + {q.thread}
    requires forall k :: PendingOf(slots, k) == PendingOf(before, k)
    ensures var home := HomeOf(slots, retired, q, given, blank);
            && home.Keys <= before.Keys + {q.thread} && 0 !in home
            && PendingOf(home, q.thread) == PendingOf(before, q.thread)
            && (q.noReply && q.result != 0 && q.thread != 0 ==> q.thread in home)
            && (given || q.thread == 0 || q.thread in slots || |retired| != RETIRED_SLOTS ==>
                  LedgerOf(ledger, slots, retired, q, given) == ledger)
  {
  }

  lemma NoThread<T>(slots: map<ThreadId, Slot<T>>, ids: set<ThreadId>)
    requires slots.Keys <= ids && 0 !in slots
    ensures slots.Keys <= ids + {0} && PendingOf(slots, 0) == 0
  {
  }

  lemma LiveWithin<T>(live: map<ThreadId, Slot<T>>, retired: seq<(ThreadId, Slot<T>)>, slots: map<ThreadId, Slot<T>>)
    requires View(live, retired, slots)
    ensures live.Keys <= slots.Keys
  {
  }

  /** The reply is what its thread's own requests make it. */
  ghost predicate AnsweredAt(events: seq<Event>, refused: seq<bool>, replies: seq<nat>, i: nat)
    requires |refused| <= |events|
  {
    var reqs := AllEffective(events, refused);
    i < |replies| == |reqs| && replies[i] == Answered(OwedTo(reqs[..i], reqs[i].thread), reqs[i])
  }

  ghost predicate AnsweredAll(events: seq<Event>, refused: seq<bool>, replies: seq<nat>)
    requires |refused| <= |events|
  {
    forall i :: 0 <= i < |replies| ==> AnsweredAt(events, refused, replies, i)
  }

  lemma InThreads(events: seq<Event>, e: Event)
    requires e in events
    ensures ThreadOf(e) in Threads(events)
  {
  }

  lemma EffectiveThread(e: Event, refused: bool)
    ensures Effective(e, refused).thread == ThreadOf(e)
  {
  }

  lemma FollowsNone<T>(events: seq<Event>, slots: map<ThreadId, Slot<T>>, ledger: seq<Failure>)
    requires slots == map[]
    ensures Follows(slots, AllEffective(events, []), ledger, ledger)
  {
  }

  lemma AnsweredNext<T>(events: seq<Event>, refused: seq<bool>, replies: seq<nat>,
                        slots: map<ThreadId, Slot<T>>, start: seq<Failure>, ledger: seq<Failure>,
                        slots': map<ThreadId, Slot<T>>, ledger': seq<Failure>, r: nat, not: bool)
    requires |refused| == |replies| < |events| && Later(start, ledger) && Later(ledger, ledger')
    requires Follows(slots, AllEffective(events, refused), start, ledger)
    requires OwnUnlessLost(ledger, slots, ledger', slots', r, Effective(events[|refused|], not))
    requires forall j :: 0 <= j < |refused| && !LostSince(start, ledger, ThreadOf(events[j])) ==>
               AnsweredAt(events, refused, replies, j)
    ensures Follows(slots', AllEffective(events, refused + [not]), start, ledger')
    ensures forall j :: 0 <= j <= |refused| && !LostSince(start, ledger', ThreadOf(events[j])) ==>
              AnsweredAt(events, refused + [not], replies + [r], j)
  {
    hide LostSince, Later, Answered, AfterCompletion;
    var n, reqs, q := |refused|, AllEffective(events, refused), Effective(events[|refused|], not);
    EffectiveThread(events[n], not);
    assert AllEffective(events, refused + [not]) == reqs + [q];
    forall id | !LostSince(start, ledger', id)
      ensures !LostSince(start, ledger, id) && !LostSince(ledger, ledger', id)
    {
      if LostSince(start, ledger, id) || LostSince(ledger, ledger', id) {
        LostStays(start, ledger, ledger', id);
      }
    }
    FollowsOn(slots, reqs, start, ledger, slots', ledger', r, q);
    forall j | 0 <= j <= n && !LostSince(start, ledger', ThreadOf(events[j]))
      ensures AnsweredAt(events, refused + [not], replies + [r], j)
    {
      assert (reqs + [q])[..j] == reqs[..j];
      assert j < n ==> AnsweredAt(events, refused, replies, j);
    }
  }

  lemma FollowsOn<T>(slots: map<ThreadId, Slot<T>>, reqs: seq<Request>, start: seq<Failure>, ledger: seq<Failure>,
                     slots': map<ThreadId, Slot<T>>, ledger': seq<Failure>, r: nat, q: Request)
    requires Follows(slots, reqs, start, ledger) && OwnUnlessLost(ledger, slots, ledger', slots', r, q)
    requires forall id :: !LostSince(start, ledger', id) ==>
               !LostSince(start, ledger, id) && !LostSince(ledger, ledger', id)
    ensures Follows(slots', reqs + [q], start, ledger')
  {
    hide LostSince, Answered, AfterCompletion;
    forall id | !LostSince(start, ledger', id) ensures PendingOf(slots', id) == OwedTo(reqs + [q], id) {
      OwedNext(reqs + [q], |reqs|, id);
      assert (reqs + [q])[..|reqs|] == reqs && (reqs + [q])[..|reqs| + 1] == reqs + [q];
    }
  }

  /** A thread named by 0 is none, and has nothing coming. */
  function OwedTo(reqs: seq<Request>, id: ThreadId): nat {
    if id == 0 then 0 else Owed(reqs, id)
  }

  /** What waits in the slots is what each thread has coming, if nothing of its has been lost. */
  ghost predicate Follows<T>(slots: map<ThreadId, Slot<T>>, reqs: seq<Request>, start: seq<Failure>,
                             ledger: seq<Failure>) {
    forall id :: !LostSince(start, ledger, id) ==> PendingOf(slots, id) == OwedTo(reqs, id)
  }

  /** What waits for a thread after a request of this or another thread. */
  function Moved(pending: nat, id: ThreadId, q: Request): nat {
    if id == q.thread && id != 0 then AfterCompletion(pending, q.result, q.noReply, q.observed) else pending
  }

  /** One request changes what waits for its own thread, and for no other. */
  ghost predicate MovesOn<T>(slots: map<ThreadId, Slot<T>>, slots': map<ThreadId, Slot<T>>, q: Request) {
    forall id :: PendingOf(slots', id) == Moved(PendingOf(slots, id), id, q)
  }

  ghost predicate AsOwn<T>(slots: map<ThreadId, Slot<T>>, slots': map<ThreadId, Slot<T>>, reply: nat, q: Request) {
    MovesOn(slots, slots', q) && reply == Answered(PendingOf(slots, q.thread), q)
  }

  /** The same, for every thread that has lost nothing by it. */
  ghost predicate OwnUnlessLost<T>(ledger: seq<Failure>, slots: map<ThreadId, Slot<T>>,
                                   ledger': seq<Failure>, slots': map<ThreadId, Slot<T>>, reply: nat, q: Request) {
    forall id :: !LostSince(ledger, ledger', id) ==>
      && PendingOf(slots', id) == Moved(PendingOf(slots, id), id, q)
      && (id == q.thread ==> reply == Answered(PendingOf(slots, id), q))
  }

  /** A request completes at its home, once failures may have been lost on the way there. */
  ghost predicate Completes<T>(was: seq<Failure>, home: map<ThreadId, Slot<T>>, ledger': seq<Failure>,
                               slots': map<ThreadId, Slot<T>>, reply: nat, q: Request) {
    && LedgerOk(was, home) && 0 !in home
    && (q.noReply && q.result != 0 && q.thread != 0 ==> q.thread in home)
    && ledger' == CompletedLedger(was, home, q.thread, q.result, q.noReply, q.observed)
    && slots' == CompletedSlots(home, q.thread, q.result, q.noReply, q.observed)
    && reply == Answered(PendingOf(home, q.thread), q)
  }

  lemma Completed<T>(ledger: seq<Failure>, slots: map<ThreadId, Slot<T>>, was: seq<Failure>,
                     home: map<ThreadId, Slot<T>>, ledger': seq<Failure>, slots': map<ThreadId, Slot<T>>,
                     reply: nat, q: Request)
    requires LedgerOk(ledger, slots) && OnlyLost(ledger, was) && 0 !in slots
    requires Completes(was, home, ledger', slots', reply, q) && Later(ledger, ledger')
    requires PendingOf(home, q.thread) == PendingOf(slots, q.thread) || (q.result == 0 && !q.observed)
    ensures slots'.Keys == home.Keys
    ensures OwnUnlessLost(ledger, slots, ledger', slots', reply, q)
    ensures Count(ledger, IsLost()) == Count(ledger', IsLost()) <==> AsOwn(slots, slots', reply, q)
    ensures was == ledger ==> Count(ledger, IsLost()) == Count(ledger', IsLost())
  {
    forall id
      ensures PendingOf(home, id) == if LostSince(ledger, was, id) then 0 else PendingOf(slots, id)
      ensures LostSince(ledger, was, id) ==> PendingOf(slots, id) != 0
      ensures LostSince(ledger, ledger', id) <==> LostSince(ledger, was, id)
    {
      LostOrKept(ledger, slots, was, home, id);
      LostBy(ledger, was, home, q, id);
    }
    LostCount(ledger, ledger');
    assert was == ledger ==> forall id :: !LostSince(ledger, was, id);
    hide LostSince, LedgerOk, OnlyLost, CompletedLedger, Count, Later;
    assert forall id :: PendingOf(slots', id) == Moved(PendingOf(home, id), id, q);
  }

  lemma LostBy<T>(ledger: seq<Failure>, was: seq<Failure>, home: map<ThreadId, Slot<T>>, q: Request, id: ThreadId)
    requires OnlyLost(ledger, was)
    ensures var ledger' := CompletedLedger(was, home, q.thread, q.result, q.noReply, q.observed);
            LostSince(ledger, ledger', id) <==> LostSince(ledger, was, id)
  {
    var ledger' := CompletedLedger(was, home, q.thread, q.result, q.noReply, q.observed);
    if LostSince(ledger, was, id) {
      var k :| 0 <= k < |was| && was[k].thread == id && was[k].outcome == Lost
               && (k < |ledger| ==> ledger[k].outcome != Lost);
      assert ledger'[k] == was[k];
    }
    if LostSince(ledger, ledger', id) {
      var k :| 0 <= k < |ledger'| && ledger'[k].thread == id && ledger'[k].outcome == Lost
               && (k < |ledger| ==> ledger[k].outcome != Lost);
      assert k < |was| && was[k] == ledger'[k];
    }
  }

  /** There are as many slots as the two tables hold between them. */
  lemma RetiredCount<T>(live: map<ThreadId, Slot<T>>, retired: seq<(ThreadId, Slot<T>)>,
                        slots: map<ThreadId, Slot<T>>)
    requires Disjoint(live, retired) && View(live, retired, slots)
    ensures |live| + |retired| <= |slots|
  {
    var ids := RetiredIds(retired);
    RetiredDistinct(retired);
    assert |live.Keys + ids| == |live.Keys| + |ids|;
    Smaller(live.Keys + ids, slots.Keys);
  }

  ghost function RetiredIds<T>(retired: seq<(ThreadId, Slot<T>)>): set<ThreadId> {
    set i | 0 <= i < |retired| :: retired[i].0
  }

  lemma {:induction false} RetiredDistinct<T>(retired: seq<(ThreadId, Slot<T>)>)
    requires forall i, j :: 0 <= i < j < |retired| ==> retired[i].0 != retired[j].0
    ensures |RetiredIds(retired)| == |retired|
  {
    if retired != [] {
      var init, last := retired[..|retired| - 1], retired[|retired| - 1];
      RetiredDistinct(init);
      assert RetiredIds(retired) == RetiredIds(init) + {last.0};
    }
  }
}
