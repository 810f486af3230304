/** The bound on retired slots is felt: 65 threads fail and are announced gone, and one is never told. */
module DeferredLoss {
  import opened ThreadTable
  import opened Deferred

  const CROWD: nat := RETIRED_SLOTS + 1

  function Ids1To(n: nat): (r: seq<ThreadId>)
    ensures |r| == n && forall i :: 0 <= i < n ==> r[i] == i + 1
  {
    seq(n, i => i + 1)
  }

  /** Each of the threads makes a call without a reply that fails. */
  function Failures(n: nat, code: nat): (r: seq<Event>)
    ensures |r| == n && forall i :: 0 <= i < n ==> r[i] == Ask(Request(i + 1, code, true, false))
  {
    seq(n, i requires 0 <= i < n => Ask(Request(i + 1, code, true, false)))
  }

  const GONE := Notice(2, [CROWD] + Ids1To(CROWD), true)
  const LATE := Ask(Request(1, 0, false, false))

  /** They fail, they are all announced gone, and the first of them calls again. */
  function Crowd(code: nat): seq<Event> {
    Failures(CROWD, code) + [GONE, LATE]
  }

  /** The first thread still has its failure coming. */
  lemma {:induction false} FirstIsOwed(code: nat, refused: seq<bool>, n: nat)
    requires 1 <= n <= CROWD + 1 && code != 0 && |refused| == CROWD + 2
    requires forall i :: 0 <= i < |refused| ==> !refused[i]
    ensures Owed(AllEffective(Crowd(code), refused)[..n], 1) == code
  {
    var reqs := AllEffective(Crowd(code), refused);
    OwedNext(reqs, n - 1, 1);
    if n > 1 {
      FirstIsOwed(code, refused, n - 1);
      assert n <= CROWD ==> reqs[n - 1] == Request(n, code, true, false);
      assert n > CROWD ==> reqs[n - 1].thread == 2;
    } else {
      assert reqs[0] == Request(1, code, true, false) && reqs[..0] == [];
    }
  }

  /** Retired in order, the first is in front until one too many has come. */
  lemma {:induction false} FirstInFront<T>(live: map<ThreadId, Slot<T>>, n: nat)
    requires 1 <= n <= RETIRED_SLOTS && forall k :: 1 <= k <= CROWD ==> k in live
    ensures var t := RetiredAll(Tables(live, []), Ids1To(CROWD)[..n]);
            && |t.retired| == n && t.retired[0].0 == 1 && 1 !in t.live
            && (forall i :: 1 <= i < n ==> t.retired[i].0 != 1)
            && forall k :: n < k <= CROWD ==> k in t.live
  {
    var ids := Ids1To(CROWD);
    RetiredNext(Tables(live, []), ids, n - 1);
    if n > 1 {
      FirstInFront(live, n - 1);
    } else {
      assert ids[..0] == [];
    }
  }

  lemma FirstIsOut<T>(live: map<ThreadId, Slot<T>>)
    requires forall k :: 1 <= k <= CROWD ==> k in live
    ensures var t := RetiredAll(Tables(live, []), Ids1To(CROWD));
            1 !in t.live && forall i :: 0 <= i < |t.retired| ==> t.retired[i].0 != 1
  {
    var ids := Ids1To(CROWD);
    FirstInFront(live, RETIRED_SLOTS);
    RetiredNext(Tables(live, []), ids, RETIRED_SLOTS);
    assert ids[..CROWD] == ids;
  }

  /** Nothing is retired, and a failure waits for each of the first `n` threads, all of them live. */
  ghost predicate AllLive<T>(live: map<ThreadId, Slot<T>>, retired: seq<(ThreadId, Slot<T>)>,
                             slots: map<ThreadId, Slot<T>>, n: nat, code: nat) {
    && retired == [] && |live| == n && (forall k :: k in live <==> 1 <= k <= n)
    && forall k :: 1 <= k <= n ==> PendingOf(slots, k) == code
  }

  lemma OneMore<T>(live: map<ThreadId, Slot<T>>, slots: map<ThreadId, Slot<T>>, live': map<ThreadId, Slot<T>>,
                   retired': seq<(ThreadId, Slot<T>)>, slots': map<ThreadId, Slot<T>>, n: nat, code: nat)
    requires AllLive(live, [], slots, n, code) && View(live, [], slots) && code != 0
    requires Disjoint(live', retired') && View(live', retired', slots')
    requires live'.Keys == live.Keys + {n + 1} && slots'.Keys <= slots.Keys + {n + 1}
    requires MovesOn(slots, slots', Request(n + 1, code, true, false))
    ensures AllLive(live', retired', slots', n + 1, code)
  {
    assert slots.Keys == live.Keys && PendingOf(slots, n + 1) == 0;
    RetiredCount(live', retired', slots');
    Smaller(slots'.Keys, live'.Keys);
    hide View, Disjoint;
    assert |live'.Keys| == n + 1;
  }

  method OneFails<T>(t: Table<T>, n: nat, code: nat) returns (reply: nat)
    requires t.Valid() && AllLive(t.live, t.retired, t.slots, n, code) && n < t.maxLive && code != 0
    modifies t
    ensures t.Valid() && AllLive(t.live, t.retired, t.slots, n + 1, code)
    ensures t.unreportedFailures == old(t.unreportedFailures)
  {
    assert |t.live| == n && t.retired == [];
    hide LedgerOk, Count, Later, OwnUnlessLost, AsOwn, MovesOn, View, Disjoint, AllLive, Answered, LostSince;
    var refused;
    reply, refused := t.Serve(Request(n + 1, code, true, false));
    assert !refused;
    OneMore(old(t.live), old(t.slots), t.live, t.retired, t.slots, n, code);
  }

  /** The notice pushes the first thread's slot out of the retired set, with what waits in it. */
  method AllGo<T>(t: Table<T>, code: nat) returns (reply: nat)
    requires t.Valid() && AllLive(t.live, t.retired, t.slots, CROWD, code) && code != 0
    modifies t
    ensures t.Valid() && t.unreportedFailures > old(t.unreportedFailures) && 1 !in t.slots && 1 !in t.live
    ensures |t.live| < CROWD
  {
    hide LedgerOk, Later, OwnUnlessLost, RetiredAll, Count;
    assert 1 in t.live && PendingOf(t.slots, 1) == code;
    FirstIsOut(t.live);
    reply := t.ServeNotice(2, GONE.words, true);
    assert GONE.words[1..CROWD + 1] == Ids1To(CROWD);
    LostCount(old(t.ledger), t.ledger);
    Smaller(t.live.Keys, old(t.live).Keys - {1});
  }

  /**
    For any failure, a run in which it is lost: the first thread's call, which succeeds and should
    have carried it, is answered with success.
   */
  method FailureIsForgotten<T>(t: Table<T>, code: nat) returns (replies: seq<nat>)
    requires t.Valid() && t.slots == map[] && t.live == map[] && t.maxLive >= CROWD && code != 0
    modifies t
    ensures t.Valid() && t.unreportedFailures > old(t.unreportedFailures)
    ensures |replies| == CROWD + 2
    ensures !AnsweredAt(Crowd(code), seq(CROWD + 2, _ => false), replies, CROWD + 1)
  {
    hide LedgerOk, Count, Later, OwnUnlessLost, View, Disjoint;
    replies := [];
    RetiredCount(t.live, t.retired, t.slots);
    for n := 0 to CROWD
      invariant t.Valid() && AllLive(t.live, t.retired, t.slots, n, code) && |replies| == n
      invariant t.unreportedFailures == old(t.unreportedFailures)
    {
      var r := OneFails(t, n, code);
      replies := replies + [r];
    }
    var gone := AllGo(t, code);
    var late, refused := t.Serve(LATE.q);
    replies := replies + [gone, late];
    FirstIsOwed(code, seq(CROWD + 2, _ => false), CROWD + 1);
  }
}
