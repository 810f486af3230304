/**
  Request ids: 32-bit sequence numbers that skip 0 (common/wire.h, client/rpc.cpp).

  A request has two names here. Its place in the order the client minted requests is an
  unbounded number, 1, 2, 3, ...; what travels is `WireId` of that place. The order the
  program asks about is `AtOrBefore` on the 32-bit ids, and the lemmas below say exactly
  when it is the order of the places.
 */
module ReqIds {

  const ID_SPACE: nat := 0x1_0000_0000
  const HALF: nat := 0x8000_0000
  // Ids in one turn of the counter: every 32-bit value but 0.
  const TURN: nat := 0xFFFF_FFFF
  // Two requests fewer than this many mints apart are always ordered correctly.
  const WINDOW: nat := 0x7FFF_FFFF

  type Id = x: nat | x < ID_SPACE

  /** The distance from `a` forward to `b`, as a 32-bit unsigned subtraction. */
  function Forward(a: Id, b: Id): (d: Id)
    ensures (a + d) % ID_SPACE == b
  {
    if a <= b then b - a else b + ID_SPACE - a
  }

  /** The order of ids as req_at_or_before tells it: at most half a turn forward, and 0 before all. */
  predicate AtOrBefore(a: Id, b: Id) {
    if a == 0 then true
    else if b == 0 then false
    else Forward(a, b) < HALF
  }

  /** How many times the counter has gone round before the n-th request. */
  function Turns(n: nat): nat
    requires n >= 1
  {
    (n - 1) / TURN
  }

  /** The id of the n-th request minted; the place 0 is "no request". */
  function WireId(n: nat): (id: Id)
    ensures id == 0 <==> n == 0
  {
    if n == 0 then 0 else (n - 1) % TURN + 1
  }

  /** Mints the next id from the counter `g_next_req`, which wraps as a uint32_t. */
  method Mint(counter: Id, ghost minted: nat) returns (id: Id, next: Id)
    requires counter == CounterAfter(minted)
    ensures id == WireId(minted + 1)
    ensures next == CounterAfter(minted + 1)
  {
    MintStep(minted);
    next := counter;
    if next == 0 {
      next := 1;
    }
    id := next;
    next := (next + 1) % ID_SPACE;
  }

  /** What the counter holds once `minted` ids have been handed out. */
  function CounterAfter(minted: nat): (c: Id) {
    (WireId(minted) + 1) % ID_SPACE
  }

  lemma MintStep(minted: nat)
    ensures WireId(minted + 1) == if CounterAfter(minted) == 0 then 1 else CounterAfter(minted)
  {
    if minted > 0 {
      DivStep(minted - 1);
    }
  }

  lemma DivStep(x: nat)
    ensures (x + 1) % TURN == if x % TURN == TURN - 1 then 0 else x % TURN + 1
  {
  }

  /** The mint order splits into whole turns and a place within the turn. */
  lemma Place(n: nat)
    requires n >= 1
    ensures n == Turns(n) * TURN + WireId(n)
  {
  }

  /** Two requests less than a turn apart are in the same turn or in neighbouring ones. */
  lemma TurnsApart(m: nat, n: nat)
    requires m >= 1 && n >= 1
    requires -(TURN as int) < n - m < TURN
    ensures -1 <= Turns(n) - Turns(m) <= 1
    ensures n - m == (Turns(n) - Turns(m)) * TURN + (WireId(n) - WireId(m))
  {
    Place(m);
    Place(n);
  }

  /**
    Exactly when the 32-bit order is right. For two requests less than one turn apart,
    `AtOrBefore` agrees with the mint order if and only if their distance, plus one when the
    skipped 0 lies between them, is under half the id space (one more is allowed backwards).
   */
  lemma OrderExact(m: nat, n: nat)
    requires m >= 1 && n >= 1
    requires -(TURN as int) < n - m < TURN
    ensures (AtOrBefore(WireId(m), WireId(n)) <==> m <= n)
       <==> if m <= n then n - m + Turns(n) - Turns(m) < HALF
            else m - n + Turns(m) - Turns(n) <= HALF
  {
    TurnsApart(m, n);
  }

  /** Inside the window the 32-bit order is the mint order, over any number of wraps. */
  lemma OrderInWindow(m: nat, n: nat)
    requires m == 0 || n == 0 || -(WINDOW as int) < n - m < WINDOW
    ensures AtOrBefore(WireId(m), WireId(n)) <==> m <= n
    ensures WireId(m) == WireId(n) <==> m == n
  {
    if m >= 1 && n >= 1 {
      OrderExact(m, n);
      TurnsApart(m, n);
    }
  }

  /** The window cannot be made wider: one mint more, across the skipped 0, is misordered. */
  lemma WindowIsTight()
    ensures !AtOrBefore(WireId(TURN), WireId(TURN + WINDOW))
    ensures HALF - 1 == WINDOW
  {
    assert (TURN + WINDOW - 1) % TURN == WINDOW - 1;
    assert (TURN - 1) % TURN == TURN - 1;
  }
}
