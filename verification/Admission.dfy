/**
  What becomes of a request before it reaches any context (server/main.cpp): it is carried out for
  its thread, or answered at once; and slots are forgotten on the way. The result is the run of
  events that the threads' contexts go through.
 */
module Admission {
  import opened ThreadTable
  import opened Seats
  import opened Contexts

  /** What arrives: a call, a notice that threads are gone, or a context made elsewhere in the process. */
  datatype Input =
    | Ask(thread: ThreadId, call: Call, noReply: bool)
    | Notice(thread: ThreadId, words: seq<nat>, noReply: bool)
    | Appear(at: Addr)

  function Forgetting(ids: seq<ThreadId>): seq<Event> {
    seq(|ids|, i requires 0 <= i < |ids| => Forgotten(ids[i]))
  }

  /** Refused, with CUDA_ERROR_INVALID_VALUE. Without a reply that has to be held, in a slot if need be. */
  function Refusal(s: Seats, id: ThreadId, noReply: bool): (Seats, seq<Event>) {
    if id == 0 || !noReply then (s, [Replied(InvalidValue)])
    else
      var p := Parks(s, id);
      (p.0, [Seat(id)] + Forgetting(p.1) + [Replied(InvalidValue)])
  }

  function Turn(s: Seats, input: Input, max: nat): (Seats, seq<Event>) {
    match input
    case Ask(id, call, noReply) =>
      if CanSit(s, id, max) then (Admits(s, id), [Request(id, call)]) else Refusal(s, id, noReply)
    case Notice(id, words, noReply) =>
      if id == 0 || !WholeNotice(words) then Refusal(s, id, noReply)
      else
        var r := RetiresAll(s, words[1..words[0] + 1]);
        (r.0, Forgetting(r.1) + [Replied(Success)])
    case Appear(a) => (s, [Elsewhere(a)])
  }

  function Turns(s: Seats, inputs: seq<Input>, max: nat): (Seats, seq<Event>) {
    if inputs == [] then (s, [])
    else
      var before := Turns(s, inputs[..|inputs| - 1], max);
      var after := Turn(before.0, Last(inputs), max);
      (after.0, before.1 + after.1)
  }

  lemma TurnsNext(s: Seats, inputs: seq<Input>, i: nat, max: nat)
    requires i < |inputs|
    ensures var before := Turns(s, inputs[..i], max); var after := Turn(before.0, inputs[i], max);
            Turns(s, inputs[..i + 1], max) == (after.0, before.1 + after.1)
  {
    assert inputs[..i + 1][..i] == inputs[..i] && Last(inputs[..i + 1]) == inputs[i];
  }

  // --- when nobody is refused, and when nobody is forgotten --------------------

  ghost function Senders(inputs: seq<Input>): set<ThreadId> {
    set i | 0 <= i < |inputs| && !inputs[i].Appear? :: inputs[i].thread
  }

  /** The events of calls that are all carried out. */
  function Plain(inputs: seq<Input>): seq<Event>
    requires forall i :: 0 <= i < |inputs| ==> !inputs[i].Notice?
  {
    seq(|inputs|, i requires 0 <= i < |inputs| =>
      if inputs[i].Ask? then Request(inputs[i].thread, inputs[i].call) else Elsewhere(inputs[i].at))
  }

  /** Threads that fit the cap are all served, and none is ever forgotten: each keeps a stack of its own. */
  lemma {:induction false} EveryoneServed(inputs: seq<Input>, max: nat)
    requires forall i :: 0 <= i < |inputs| ==> !inputs[i].Notice?
    requires 0 !in Senders(inputs) && |Senders(inputs)| <= max
    ensures Turns(NOBODY, inputs, max).1 == Plain(inputs)
    ensures var s := Turns(NOBODY, inputs, max).0; s.live <= Senders(inputs) && s.retired == []
  {
    if inputs != [] {
      var init, last := inputs[..|inputs| - 1], Last(inputs);
      SendersNext(inputs);
      hide Senders;
      Smaller(Senders(init), Senders(inputs));
      EveryoneServed(init, max);
      PlainNext(inputs);
      ServedNext(Turns(NOBODY, init, max).0, last, Senders(inputs), max);
      hide Turn, Plain;
    }
  }

  lemma PlainNext(inputs: seq<Input>)
    requires inputs != [] && forall i :: 0 <= i < |inputs| ==> !inputs[i].Notice?
    ensures Plain(inputs) == Plain(inputs[..|inputs| - 1]) + Plain([Last(inputs)])
  {
  }

  lemma ServedNext(s: Seats, input: Input, ids: set<ThreadId>, max: nat)
    requires !input.Notice? && s.live <= ids && s.retired == [] && |ids| <= max
    requires input.Ask? ==> input.thread in ids && input.thread != 0
    ensures var r := Turn(s, input, max); r.1 == Plain([input]) && r.0.live <= ids && r.0.retired == []
  {
    if input.Ask? && input.thread !in s.live {
      Smaller(s.live + {input.thread}, ids);
    }
  }

  lemma SendersNext(inputs: seq<Input>)
    requires inputs != []
    ensures var init, last := inputs[..|inputs| - 1], Last(inputs);
            Senders(inputs) == Senders(init) + if last.Appear? then {} else {last.thread}
  {
    var init := inputs[..|inputs| - 1];
    forall id | id in Senders(inputs) && id !in Senders(init)
      ensures !Last(inputs).Appear? && id == Last(inputs).thread
    {
      var i :| 0 <= i < |inputs| && !inputs[i].Appear? && inputs[i].thread == id;
      assert i < |init| ==> init[i] == inputs[i];
    }
    forall id | id in Senders(init) ensures id in Senders(inputs) {
      var i :| 0 <= i < |init| && !init[i].Appear? && init[i].thread == id;
      assert inputs[i] == init[i];
    }
  }

  /** Everyone who sits is one of `ids`. */
  ghost predicate Among(s: Seats, ids: set<ThreadId>) {
    forall k :: Seated(s, k) ==> k in ids
  }

  lemma {:induction false} SeatCount(s: Seats, ids: set<ThreadId>)
    requires Distinct(s) && Among(s, ids)
    ensures |s.live| + |s.retired| <= |ids|
    decreases |s.retired|
  {
    if s.retired == [] {
      assert forall k :: k in s.live ==> Seated(s, k);
      Smaller(s.live, ids);
    } else {
      var n := |s.retired| - 1;
      var id, t := s.retired[n], s.(retired := s.retired[..n]);
      assert Seated(s, id);
      assert forall k :: Seated(t, k) ==> Seated(s, k) && k != id;
      SeatCount(t, ids - {id});
    }
  }

  lemma {:induction false} NoOneRetiredIsForgotten(s: Seats, ids: seq<ThreadId>, all: set<ThreadId>, max: nat)
    requires SeatsOk(s, max) && Among(s, all) && |all| <= RETIRED_SLOTS
    ensures var r := RetiresAll(s, ids); r.1 == [] && SeatsOk(r.0, max) && Among(r.0, all)
  {
    if ids != [] {
      NoOneRetiredIsForgotten(s, ids[..|ids| - 1], all, max);
      var t := RetiresAll(s, ids[..|ids| - 1]).0;
      RetireKeeps(t, ids[|ids| - 1], max);
      SeatCount(t, all);
    }
  }

  /** With no more threads than keep their slots when retired, whatever they send, nobody is forgotten. */
  lemma {:induction false} NobodyForgotten(inputs: seq<Input>, max: nat)
    requires |Senders(inputs) - {0}| <= RETIRED_SLOTS
    ensures forall i :: 0 <= i < |Turns(NOBODY, inputs, max).1| ==> !Turns(NOBODY, inputs, max).1[i].Forgotten?
    ensures var s := Turns(NOBODY, inputs, max).0; SeatsOk(s, max) && Among(s, Senders(inputs) - {0})
  {
    if inputs != [] {
      var init, last := inputs[..|inputs| - 1], Last(inputs);
      SendersNext(inputs);
      Smaller(Senders(init) - {0}, Senders(inputs) - {0});
      NobodyForgotten(init, max);
      NoneForgottenNext(Turns(NOBODY, init, max).0, last, Senders(inputs) - {0}, max);
    }
  }

  lemma NoneForgottenNext(s: Seats, input: Input, all: set<ThreadId>, max: nat)
    requires SeatsOk(s, max) && Among(s, all) && |all| <= RETIRED_SLOTS
    requires !input.Appear? && input.thread != 0 ==> input.thread in all
    ensures var r := Turn(s, input, max);
            && SeatsOk(r.0, max) && Among(r.0, all) && forall i :: 0 <= i < |r.1| ==> !r.1[i].Forgotten?
  {
    if !input.Appear? && input.thread != 0 {
      var id := input.thread;
      if input.Ask? && CanSit(s, id, max) {
        AdmitKeeps(s, id, max);
      } else if input.Notice? && WholeNotice(input.words) {
        NoOneRetiredIsForgotten(s, input.words[1..input.words[0] + 1], all, max);
      } else {
        ParkKeeps(s, id, max);
        if !Seated(s, id) {
          SeatCount(s, all - {id});
          assert |all - {id}| == |all| - 1;
        }
      }
    }
  }
}
