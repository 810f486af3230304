/** Whose slots a session keeps: those of the live client threads, and of the last announced gone (server/main.cpp). */
module Seats {
  import opened ThreadTable

  datatype Seats = Seats(live: set<ThreadId>, retired: seq<ThreadId>)

  const NOBODY := Seats({}, [])

  predicate Seated(s: Seats, id: ThreadId) {
    id in s.live || id in s.retired
  }

  /** A thread with a live slot, or one there is still room for; 0 names no thread. */
  predicate CanSit(s: Seats, id: ThreadId, max: nat) {
    id != 0 && (id in s.live || |s.live| < max)
  }

  ghost predicate SeatsOk(s: Seats, max: nat) {
    && |s.live| <= max && |s.retired| <= RETIRED_SLOTS && Distinct(s)
  }

  /** No thread sits twice. */
  ghost predicate Distinct(s: Seats) {
    && !Seated(s, 0)
    && (forall i :: 0 <= i < |s.retired| ==> s.retired[i] !in s.live)
    && forall i, j :: 0 <= i < j < |s.retired| ==> s.retired[i] != s.retired[j]
  }

  function Without(ids: seq<ThreadId>, id: ThreadId): seq<ThreadId> {
    if ids == [] then []
    else if ids[0] == id then ids[1..]
    else [ids[0]] + Without(ids[1..], id)
  }

  /** thread_slot and admit_thread, for a thread that can sit. */
  function Admits(s: Seats, id: ThreadId): Seats {
    if id in s.live then s else Seats(s.live + {id}, Without(s.retired, id))
  }

  /** trim_retired: who is left, and who was forgotten. */
  function Trims(s: Seats): (Seats, seq<ThreadId>) {
    if |s.retired| > RETIRED_SLOTS then (s.(retired := s.retired[1..]), [s.retired[0]]) else (s, [])
  }

  /** retire_thread. */
  function Retires(s: Seats, id: ThreadId): (Seats, seq<ThreadId>) {
    if id !in s.live then (s, []) else Trims(Seats(s.live - {id}, s.retired + [id]))
  }

  function RetiresAll(s: Seats, ids: seq<ThreadId>): (Seats, seq<ThreadId>) {
    if ids == [] then (s, [])
    else
      var before := RetiresAll(s, ids[..|ids| - 1]);
      var after := Retires(before.0, ids[|ids| - 1]);
      (after.0, before.1 + after.1)
  }

  /** deferred_home, where a failure is to be held: a thread without a slot gets one in the retired set. */
  function Parks(s: Seats, id: ThreadId): (Seats, seq<ThreadId>) {
    if Seated(s, id) then (s, []) else Trims(s.(retired := s.retired + [id]))
  }

  lemma {:induction false} WithoutOne(ids: seq<ThreadId>, i: nat)
    requires i < |ids| && forall j :: 0 <= j < i ==> ids[j] != ids[i]
    ensures Without(ids, ids[i]) == ids[..i] + ids[i + 1..]
  {
    if i > 0 {
      WithoutOne(ids[1..], i - 1);
      assert ids[..i] + ids[i + 1..] == [ids[0]] + (ids[1..][..i - 1] + ids[1..][i..]);
    }
  }

  lemma {:induction false} WithoutNone(ids: seq<ThreadId>, id: ThreadId)
    requires id !in ids
    ensures Without(ids, id) == ids
  {
    if ids != [] {
      WithoutNone(ids[1..], id);
    }
  }

  lemma {:induction false} WithoutMembers(ids: seq<ThreadId>, id: ThreadId)
    requires forall i, j :: 0 <= i < j < |ids| ==> ids[i] != ids[j]
    ensures var r := Without(ids, id);
            && |r| <= |ids| && (forall k :: k in r <==> k in ids && k != id)
            && forall i, j :: 0 <= i < j < |r| ==> r[i] != r[j]
  {
    if ids != [] && ids[0] != id {
      WithoutMembers(ids[1..], id);
      assert forall k :: k in ids <==> k == ids[0] || k in ids[1..];
      assert forall i :: 0 <= i < |Without(ids[1..], id)| ==> Without(ids[1..], id)[i] in ids[1..];
    }
  }

  /** Being let in leaves everyone else where they sat. */
  lemma AdmitKeeps(s: Seats, id: ThreadId, max: nat)
    requires SeatsOk(s, max) && CanSit(s, id, max)
    ensures SeatsOk(Admits(s, id), max) && id in Admits(s, id).live
    ensures forall k :: Seated(Admits(s, id), k) <==> Seated(s, k) || k == id
  {
    WithoutMembers(s.retired, id);
    hide Without;
    var r := Without(s.retired, id);
    assert forall i :: 0 <= i < |r| ==> r[i] in r;
  }

  lemma TrimKeeps(s: Seats, max: nat)
    requires |s.live| <= max && |s.retired| <= RETIRED_SLOTS + 1 && Distinct(s)
    ensures SeatsOk(Trims(s).0, max)
    ensures forall k :: Seated(Trims(s).0, k) <==> Seated(s, k) && k !in Trims(s).1
  {
    if |s.retired| > RETIRED_SLOTS {
      var r := s.retired[1..];
      assert forall j :: 0 <= j < |r| ==> r[j] == s.retired[j + 1];
      forall k | k in s.retired && k != s.retired[0] ensures k in r {
        var j :| 0 <= j < |s.retired| && s.retired[j] == k;
        assert r[j - 1] == k;
      }
    }
  }

  lemma RetireKeeps(s: Seats, id: ThreadId, max: nat)
    requires SeatsOk(s, max)
    ensures SeatsOk(Retires(s, id).0, max)
    ensures forall k :: Seated(Retires(s, id).0, k) <==> Seated(s, k) && k !in Retires(s, id).1
  {
    if id in s.live {
      TrimKeeps(Seats(s.live - {id}, s.retired + [id]), max);
    }
  }

  lemma ParkKeeps(s: Seats, id: ThreadId, max: nat)
    requires SeatsOk(s, max) && id != 0
    ensures SeatsOk(Parks(s, id).0, max)
    ensures forall k :: Seated(Parks(s, id).0, k) <==> (Seated(s, k) || k == id) && k !in Parks(s, id).1
  {
    if !Seated(s, id) {
      TrimKeeps(s.(retired := s.retired + [id]), max);
    }
  }
}
