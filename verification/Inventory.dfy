/**
  The reverse index of a session's inventory (server/inventory.cpp): for each context, the entries
  recorded against it, so that tearing a context down visits those entries alone.
 */
module Inventory {
  // A CUcontext; 0 is null.
  type Ctx = nat
  type Handle = nat

  /** Where something was made: its context and, for a primary context, the device and generation. */
  datatype Stamp = Stamp(ctx: Ctx, dev: int, gen: nat)

  /** The maps of the inventory. The last three belong to no context, or are the contexts themselves. */
  datatype Kind =
    | Allocs | Modules | Streams | Events | Graphs | GraphExecs | LibHandles
    | Contexts | Libraries | VmmHandles

  datatype Key = Key(kind: Kind, handle: Handle)

  /** A stream capture begun and not ended; the few there are are not indexed. */
  datatype Capture = Capture(stream: Handle, where: Stamp)

  /** ctx_slot: whether a context's teardown sweeps the map. */
  predicate Swept(kind: Kind) {
    !kind.Contexts? && !kind.Libraries? && !kind.VmmHandles?
  }

  /** What is made inside a context, and goes when the context goes. */
  const INSIDE: set<Kind> := {Allocs, Modules, Streams, Events, Graphs, GraphExecs, LibHandles}

  /** The entries a teardown of `c` has to find. */
  predicate Under(entries: map<Key, Stamp>, c: Ctx, k: Key) {
    c != 0 && k in entries && Swept(k.kind) && entries[k].ctx == c
  }

  /** `byCtx` holds, for each context, precisely the entries made under it, and no empty bucket. */
  ghost predicate Indexed(entries: map<Key, Stamp>, byCtx: map<Ctx, set<Key>>) {
    && (forall c, k :: c in byCtx && k in byCtx[c] ==> Under(entries, c, k))
    && (forall c, k :: Under(entries, c, k) ==> c in byCtx && k in byCtx[c])
    && (forall c :: c in byCtx ==> byCtx[c] != {})
  }

  /** Nothing about the index is left open: the entries determine it. */
  lemma IndexUnique(entries: map<Key, Stamp>, a: map<Ctx, set<Key>>, b: map<Ctx, set<Key>>)
    requires Indexed(entries, a) && Indexed(entries, b)
    ensures a == b
  {
    IndexWithin(entries, a, b);
    IndexWithin(entries, b, a);
    forall c | c in a ensures c in b && a[c] == b[c] {
      assert forall k :: k in a[c] <==> k in b[c];
    }
  }

  lemma IndexWithin(entries: map<Key, Stamp>, a: map<Ctx, set<Key>>, b: map<Ctx, set<Key>>)
    requires Indexed(entries, a) && Indexed(entries, b)
    ensures forall c :: c in a ==> c in b && a[c] <= b[c]
  {
    forall c | c in a ensures c in b && a[c] <= b[c] {
      var k :| k in a[c];
      assert Under(entries, c, k);
      forall k' | k' in a[c] ensures k' in b[c] {
        assert Under(entries, c, k');
      }
    }
  }

  /** index_add. */
  function IndexAdd(byCtx: map<Ctx, set<Key>>, c: Ctx, k: Key): map<Ctx, set<Key>> {
    if c == 0 || !Swept(k.kind) then byCtx
    else byCtx[c := (if c in byCtx then byCtx[c] else {}) + {k}]
  }

  /** index_remove, with index_drop_if_empty. */
  function IndexRemove(byCtx: map<Ctx, set<Key>>, c: Ctx, k: Key): map<Ctx, set<Key>> {
    if c == 0 || !Swept(k.kind) || c !in byCtx then byCtx
    else
      var bucket := byCtx[c] - {k};
      if bucket == {} then byCtx - {c} else byCtx[c := bucket]
  }

  lemma RemoveKeeps(entries: map<Key, Stamp>, byCtx: map<Ctx, set<Key>>, k: Key)
    requires Indexed(entries, byCtx) && k in entries
    ensures Indexed(entries - {k}, IndexRemove(byCtx, entries[k].ctx, k))
  {
    var c, entries', byCtx' := entries[k].ctx, entries - {k}, IndexRemove(byCtx, entries[k].ctx, k);
    forall d, j | Under(entries', d, j) ensures d in byCtx' && j in byCtx'[d] {
      assert Under(entries, d, j);
    }
    forall d, j | d in byCtx' && j in byCtx'[d] ensures Under(entries', d, j) {
      assert d in byCtx && j in byCtx[d];
      assert Under(entries, d, j);
    }
  }

  lemma AddKeeps(entries: map<Key, Stamp>, byCtx: map<Ctx, set<Key>>, k: Key, st: Stamp)
    requires Indexed(entries, byCtx) && k !in entries
    ensures Indexed(entries[k := st], IndexAdd(byCtx, st.ctx, k))
  {
    var entries', byCtx' := entries[k := st], IndexAdd(byCtx, st.ctx, k);
    forall d, j | Under(entries', d, j) ensures d in byCtx' && j in byCtx'[d] {
      assert j != k ==> Under(entries, d, j);
    }
    forall d, j | d in byCtx' && j in byCtx'[d] ensures Under(entries', d, j) {
      if d != st.ctx || j != k {
        assert d in byCtx && j in byCtx[d];
        assert Under(entries, d, j);
      }
    }
  }

  /** A handle noted again under the context it had leaves the index as it is. */
  lemma RestampKeeps(entries: map<Key, Stamp>, byCtx: map<Ctx, set<Key>>, k: Key, st: Stamp)
    requires Indexed(entries, byCtx) && k in entries && entries[k].ctx == st.ctx
    ensures Indexed(entries[k := st], IndexAdd(byCtx, st.ctx, k))
  {
    var entries', byCtx' := entries[k := st], IndexAdd(byCtx, st.ctx, k);
    if st.ctx != 0 && Swept(k.kind) {
      assert Under(entries, st.ctx, k);
      assert byCtx[st.ctx] + {k} == byCtx[st.ctx];
    }
    assert byCtx' == byCtx;
    forall d, j | Under(entries', d, j) ensures d in byCtx' && j in byCtx'[d] {
      assert Under(entries, d, j);
    }
    forall d, j | d in byCtx' && j in byCtx'[d] ensures Under(entries', d, j) {
      assert Under(entries, d, j);
    }
  }

  /** Dropping a set of entries from the maps and their bucket from the index. */
  lemma DropSome(entries: map<Key, Stamp>, byCtx: map<Ctx, set<Key>>, c: Ctx, gone: set<Key>)
    requires Indexed(entries, byCtx) && c in byCtx && gone <= byCtx[c]
    ensures var left := byCtx[c] - gone;
            Indexed(entries - gone, if left == {} then byCtx - {c} else byCtx[c := left])
  {
    var left := byCtx[c] - gone;
    var entries', byCtx' := entries - gone, if left == {} then byCtx - {c} else byCtx[c := left];
    forall d, j | Under(entries', d, j) ensures d in byCtx' && j in byCtx'[d] {
      assert Under(entries, d, j);
      assert d == c ==> j in left;
    }
    forall d, j | d in byCtx' && j in byCtx'[d] ensures Under(entries', d, j) {
      assert Under(entries, d, j);
      assert j in gone ==> Under(entries, c, j);
    }
  }

  // --- what a scan of everything would remove --------------------------------

  /** Every entry of the swept maps made under `c`. */
  function ScanUnder(entries: map<Key, Stamp>, c: Ctx): set<Key> {
    set k | k in entries && Under(entries, c, k)
  }

  /** Made on the device in a generation that has ended. */
  predicate Stale(st: Stamp, dev: int, now: nat) {
    st.dev == dev && st.gen != now
  }

  function ScanStale(entries: map<Key, Stamp>, dev: int, now: nat): set<Key> {
    set k | k in entries && Swept(k.kind) && Stale(entries[k], dev, now)
  }

  /** The stale entries found in the buckets of these contexts. */
  function StaleUnder(entries: map<Key, Stamp>, cs: seq<Ctx>, dev: int, now: nat): set<Key> {
    set k | k in ScanStale(entries, dev, now) && entries[k].ctx != 0 && entries[k].ctx in cs
  }

  lemma StaleNext(start: map<Key, Stamp>, before: map<Key, Stamp>, cs: seq<Ctx>, i: nat, dev: int, now: nat)
    requires i < |cs| && before == start - StaleUnder(start, cs[..i], dev, now)
    ensures before - (ScanUnder(before, cs[i]) * ScanStale(before, dev, now))
         == start - StaleUnder(start, cs[..i + 1], dev, now)
  {
    assert cs[..i + 1] == cs[..i] + [cs[i]];
  }

  // --- where a stamp comes from -----------------------------------------------

  // kEndedGeneration
  const ENDED: nat := 0xFFFF_FFFF_FFFF_FFFF

  /** A stamp with a device names the context learned for that device, which is never null. */
  predicate Placed(st: Stamp, devs: map<Ctx, nat>) {
    st.dev >= 0 ==> st.ctx != 0 && st.ctx in devs && devs[st.ctx] == st.dev
  }

  ghost predicate AllPlaced(entries: map<Key, Stamp>, devs: map<Ctx, nat>) {
    forall k :: k in entries ==> Placed(entries[k], devs)
  }

  function GenerationOf(gens: map<nat, nat>, dev: nat): nat {
    if dev in gens then gens[dev] else 0
  }

  /** Every ended entry of the device is in a bucket of one of the contexts learned for it. */
  lemma PlacedIsFound(entries: map<Key, Stamp>, devs: map<Ctx, nat>, handles: seq<Ctx>, dev: nat, now: nat)
    requires AllPlaced(entries, devs) && forall c :: c in devs && devs[c] == dev ==> c in handles
    ensures StaleUnder(entries, handles, dev, now) == ScanStale(entries, dev, now)
  {
    assert forall k :: k in entries ==> Placed(entries[k], devs);
  }

  /** No entry made under the context says it is another device's. */
  ghost predicate Undisputed(entries: map<Key, Stamp>, c: Ctx, dev: nat) {
    forall k :: k in entries && entries[k].ctx == c && entries[k].dev >= 0 ==> entries[k].dev == dev
  }

  /** Learning where a handle belongs keeps the entries placed exactly when none was made under it elsewhere. */
  lemma LearnExact(entries: map<Key, Stamp>, devs: map<Ctx, nat>, c: Ctx, dev: nat)
    requires AllPlaced(entries, devs)
    ensures AllPlaced(entries, devs[c := dev]) <==> Undisputed(entries, c, dev)
  {
    if AllPlaced(entries, devs[c := dev]) {
      forall k | k in entries && entries[k].ctx == c && entries[k].dev >= 0 ensures entries[k].dev == dev {
        assert Placed(entries[k], devs[c := dev]);
      }
    } else {
      var k :| k in entries && !Placed(entries[k], devs[c := dev]);
      assert Placed(entries[k], devs);
    }
  }

  /** What one bucket's loop drops: a handle its map does not have, or one of an ended generation. */
  function StaleIn(entries: map<Key, Stamp>, bucket: set<Key>, dev: int, now: nat): set<Key> {
    set k | k in bucket && (k !in entries || Stale(entries[k], dev, now))
  }

  function Keeping(cs: seq<Capture>, keep: Stamp -> bool): seq<Capture> {
    if cs == [] then []
    else
      var last := cs[|cs| - 1];
      Keeping(cs[..|cs| - 1], keep) + if keep(last.where) then [last] else []
  }

  /** What is kept is what the test keeps, in the order it was. */
  lemma {:induction false} KeepingExact(cs: seq<Capture>, keep: Stamp -> bool)
    ensures forall c :: c in Keeping(cs, keep) <==> c in cs && keep(c.where)
    ensures multiset(Keeping(cs, keep)) <= multiset(cs)
  {
    if cs != [] {
      KeepingExact(cs[..|cs| - 1], keep);
      assert cs == cs[..|cs| - 1] + [cs[|cs| - 1]];
    }
  }

  /** The captures vector, scanned in place. */
  method KeepCaptures(cs: seq<Capture>, keep: Stamp -> bool) returns (r: seq<Capture>)
    ensures r == Keeping(cs, keep)
  {
    r := [];
    for i := 0 to |cs|
      invariant r == Keeping(cs[..i], keep)
    {
      assert cs[..i + 1][..i] == cs[..i];
      if keep(cs[i].where) {
        r := r + [cs[i]];
      }
    }
    assert cs[..|cs|] == cs;
  }

  class Inventory {
    var entries: map<Key, Stamp>
    var captures: seq<Capture>
    var byCtx: map<Ctx, set<Key>>
    // g_primary_dev and g_primary_gen, which all sessions share
    var primaryDev: map<Ctx, nat>
    var primaryGen: map<nat, nat>

    ghost predicate Valid()
      reads this
    {
      Indexed(entries, byCtx) && AllPlaced(entries, primaryDev) && 0 !in primaryDev
    }

    constructor ()
      ensures Valid() && entries == map[] && captures == [] && primaryDev == map[]
      ensures forall d :: GenerationOf(primaryGen, d) == 0
    {
      entries, captures, byCtx := map[], [], map[];
      primaryDev, primaryGen := map[], map[];
    }

    /**
      learn_primary. The driver has one handle for a device and never moves it; if it did, the
      entries made under it on the other device would be lost to a teardown.
     */
    method LearnPrimary(c: Ctx, dev: nat)
      requires Valid()
      modifies this`primaryDev
      ensures primaryDev == if c == 0 then old(primaryDev) else old(primaryDev)[c := dev]
      ensures c == 0 ==> Valid()
      ensures c != 0 ==> (Valid() <==> Undisputed(entries, c, dev))
    {
      if c == 0 {
        return;
      }
      LearnExact(entries, primaryDev, c, dev);
      primaryDev := primaryDev[c := dev];
    }

    /** bump_generation: the device's primary context has been destroyed. */
    method EndGeneration(dev: nat)
      requires Valid()
      modifies this`primaryGen
      ensures Valid() && GenerationOf(primaryGen, dev) == old(GenerationOf(primaryGen, dev)) + 1
      ensures forall d :: d != dev ==> GenerationOf(primaryGen, d) == old(GenerationOf(primaryGen, d))
    {
      primaryGen := primaryGen[dev := GenerationOf(primaryGen, dev) + 1];
    }

    /** stamp_context: the context and, if it is a primary one, its device and generation. */
    method StampContext(c: Ctx) returns (st: Stamp)
      requires Valid()
      ensures Placed(st, primaryDev) && st.ctx == c
      ensures c in primaryDev ==> st.dev == primaryDev[c] && st.gen == GenerationOf(primaryGen, primaryDev[c])
      ensures c !in primaryDev ==> st == Stamp(c, -1, 0)
    {
      if c in primaryDev {
        return Stamp(c, primaryDev[c], GenerationOf(primaryGen, primaryDev[c]));
      }
      return Stamp(c, -1, 0);
    }

    /** stamp_of: where the source was recorded, or the current context in a generation already ended. */
    method StampOf(kind: Kind, source: Handle, current: Ctx) returns (st: Stamp)
      requires Valid()
      ensures Placed(st, primaryDev)
      ensures source != 0 && Key(kind, source) in entries ==> st == entries[Key(kind, source)]
      ensures source != 0 && Key(kind, source) !in entries ==> st.ctx == current && st.gen == ENDED
    {
      if source != 0 && Key(kind, source) in entries {
        return entries[Key(kind, source)];
      }
      st := StampContext(current);
      if source != 0 {
        st := st.(gen := ENDED);
      }
    }

    /** primary_handles: every handle learned for the device. */
    method PrimaryHandles(dev: nat) returns (hs: seq<Ctx>)
      ensures forall c :: c in hs <==> c in primaryDev && primaryDev[c] == dev
    {
      hs := [];
      var left := primaryDev.Keys;
      while left != {}
        invariant left <= primaryDev.Keys
        invariant forall c :: c in hs <==> c in primaryDev && c !in left && primaryDev[c] == dev
        decreases |left|
      {
        var c :| c in left;
        if primaryDev[c] == dev {
          hs := hs + [c];
        }
        left := left - {c};
      }
    }

    /** note and inventory_note_handle. */
    method Note(kind: Kind, handle: Handle, st: Stamp)
      requires Valid() && Placed(st, primaryDev)
      modifies this`entries, this`byCtx
      ensures Valid()
      ensures entries == if handle == 0 then old(entries) else old(entries)[Key(kind, handle) := st]
    {
      if handle == 0 {
        return;
      }
      var k := Key(kind, handle);
      if k in entries && entries[k].ctx == st.ctx {
        RestampKeeps(entries, byCtx, k, st);
      } else if k in entries {
        RemoveKeeps(entries, byCtx, k);
        byCtx := IndexRemove(byCtx, entries[k].ctx, k);
        AddKeeps(entries - {k}, byCtx, k, st);
        assert (entries - {k})[k := st] == entries[k := st];
      } else {
        AddKeeps(entries, byCtx, k, st);
      }
      entries := entries[k := st];
      byCtx := IndexAdd(byCtx, st.ctx, k);
    }

    /** forget and inventory_forget_handle. */
    method Forget(kind: Kind, handle: Handle)
      requires Valid()
      modifies this`entries, this`byCtx
      ensures Valid() && entries == old(entries) - {Key(kind, handle)}
    {
      var k := Key(kind, handle);
      if k in entries {
        RemoveKeeps(entries, byCtx, k);
        byCtx := IndexRemove(byCtx, entries[k].ctx, k);
      } else {
        assert entries - {k} == entries;
      }
      entries := entries - {k};
    }

    /** forget_under: what the index names is what a scan of every map would find. */
    method ForgetUnder(c: Ctx)
      requires Valid()
      modifies this`entries, this`byCtx, this`captures
      ensures Valid() && entries == old(entries) - ScanUnder(old(entries), c)
      ensures captures == Keeping(old(captures), (st: Stamp) => st.ctx != c)
    {
      if c in byCtx {
        assert byCtx[c] == ScanUnder(entries, c);
        DropSome(entries, byCtx, c, byCtx[c]);
        entries := EraseAll(entries, byCtx[c]);
        byCtx := byCtx - {c};
      } else {
        assert ScanUnder(entries, c) == {};
      }
      captures := KeepCaptures(captures, (st: Stamp) => st.ctx != c);
    }

    /** forget_context: the context goes, and with it all that was made under it. */
    method ForgetContext(c: Ctx)
      requires Valid()
      modifies this`entries, this`byCtx, this`captures
      ensures Valid()
      ensures entries == old(entries) - {Key(Contexts, c)} - ScanUnder(old(entries), c)
      ensures captures == Keeping(old(captures), (st: Stamp) => st.ctx != c)
      ensures forall k :: k in entries <==>
        k in old(entries) && k != Key(Contexts, c) && !(k.kind in INSIDE && c != 0 && old(entries)[k].ctx == c)
      ensures forall k :: k in entries ==> entries[k] == old(entries)[k]
    {
      Forget(Contexts, c);
      assert ScanUnder(entries, c) == ScanUnder(old(entries), c);
      ForgetUnder(c);
    }

    /** One bucket of forget_primary: the entries of an ended generation leave their map and the index. */
    method ForgetStale(c: Ctx, dev: int, now: nat)
      requires Valid()
      modifies this`entries, this`byCtx
      ensures Valid()
      ensures entries == old(entries) - (ScanUnder(old(entries), c) * ScanStale(old(entries), dev, now))
    {
      ghost var stale := ScanUnder(entries, c) * ScanStale(entries, dev, now);
      if c !in byCtx {
        assert ScanUnder(entries, c) == {};
        assert entries - stale == entries;
        return;
      }
      assert byCtx[c] == ScanUnder(entries, c);
      assert stale == StaleIn(entries, byCtx[c], dev, now);
      DropSome(entries, byCtx, c, stale);
      var bucket;
      entries, bucket := EraseStale(entries, byCtx[c], dev, now);
      byCtx := if bucket == {} then byCtx - {c} else byCtx[c := bucket];
    }

    /**
      forget_primary: visiting the buckets of the contexts learned for the device removes exactly
      what a scan of every entry for the device's ended generations would.
     */
    method ForgetPrimary(dev: nat)
      requires Valid()
      modifies this`entries, this`byCtx, this`captures
      ensures Valid()
      ensures var now := GenerationOf(primaryGen, dev);
              && entries == old(entries) - ScanStale(old(entries), dev, now)
              && captures == Keeping(old(captures), (st: Stamp) => !Stale(st, dev, now))
              && forall k :: k in entries <==>
                   k in old(entries)
                   && !(k.kind in INSIDE && old(entries)[k].dev == dev && old(entries)[k].gen != now)
    {
      var now := GenerationOf(primaryGen, dev);
      var primaries := PrimaryHandles(dev);
      PlacedIsFound(entries, primaryDev, primaries, dev, now);
      for i := 0 to |primaries|
        invariant Valid() && captures == old(captures)
        invariant entries == old(entries) - StaleUnder(old(entries), primaries[..i], dev, now)
      {
        ghost var before := entries;
        ForgetStale(primaries[i], dev, now);
        StaleNext(old(entries), before, primaries, i, dev, now);
      }
      assert primaries[..|primaries|] == primaries;
      captures := KeepCaptures(captures, (st: Stamp) => !Stale(st, dev, now));
    }
  }

  /** The maps erased from, one handle at a time. */
  method EraseAll(entries: map<Key, Stamp>, keys: set<Key>) returns (r: map<Key, Stamp>)
    ensures r == entries - keys
  {
    r := entries;
    var left := keys;
    while left != {}
      invariant left <= keys && r == entries - (keys - left)
      decreases |left|
    {
      var k :| k in left;
      r := r - {k};
      left := left - {k};
    }
  }

  /** The erase-while-iterating loop over one bucket. */
  method EraseStale(entries: map<Key, Stamp>, bucket: set<Key>, dev: int, now: nat)
    returns (r: map<Key, Stamp>, b: set<Key>)
    ensures r == entries - StaleIn(entries, bucket, dev, now)
    ensures b == bucket - StaleIn(entries, bucket, dev, now)
  {
    r, b := entries, bucket;
    var left := bucket;
    ghost var stale := StaleIn(entries, bucket, dev, now);
    while left != {}
      invariant left <= bucket && b == bucket - (stale - left) && r == entries - (stale - left)
      decreases |left|
    {
      var k :| k in left;
      if k !in r || Stale(r[k], dev, now) {
        r := r - {k};
        b := b - {k};
      }
      left := left - {k};
    }
  }
}
