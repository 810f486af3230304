/**
  Contexts a client creates itself (server/inventory.cpp): what is made inside one goes with it, the
  record follows, and what expiry then destroys exists and is the session's own, although the driver
  hands addresses out again to anybody.
 */
module Teardown {
  import opened Inventory

  /** Something that exists inside a created context, and whether this session made it. */
  datatype Obj = Obj(ctx: Ctx, own: bool)

  /** Everything is inside a context that exists, and whoever has the context has it. */
  ghost predicate Housed(objects: map<Key, Obj>, contexts: map<Ctx, bool>) {
    forall k :: k in objects ==>
      k.kind in INSIDE && k.handle != 0 && objects[k].ctx in contexts && contexts[objects[k].ctx] == objects[k].own
  }

  /** Recorded as made in a context that is not a primary one, and with its place known. */
  predicate Plain(st: Stamp) {
    st.dev < 0 && st.gen != ENDED
  }

  /** What is on record exists, is where the record says, and is the session's own. */
  ghost predicate Sound(entries: map<Key, Stamp>, objects: map<Key, Obj>) {
    forall k :: k in entries && k.kind in INSIDE && Plain(entries[k]) ==>
      k in objects && objects[k] == Obj(entries[k].ctx, true)
  }

  /** What the session made is on record. */
  ghost predicate Full(entries: map<Key, Stamp>, objects: map<Key, Obj>) {
    forall k :: k in objects && objects[k].own ==> k in entries && Plain(entries[k])
  }

  /** The contexts on record are the session's own. */
  ghost predicate Owned(entries: map<Key, Stamp>, contexts: map<Ctx, bool>) {
    && (forall c :: c in contexts && contexts[c] ==> Key(Contexts, c) in entries)
    && (forall c :: Key(Contexts, c) in entries ==> c in contexts && contexts[c])
  }

  function Outside(objects: map<Key, Obj>, c: Ctx): map<Key, Obj> {
    map k | k in objects && objects[k].ctx != c :: objects[k]
  }

  /** The record after a context's teardown is right about what is left. */
  lemma TornDown(entries: map<Key, Stamp>, entries': map<Key, Stamp>, contexts: map<Ctx, bool>,
                 objects: map<Key, Obj>, c: Ctx)
    requires Housed(objects, contexts) && Sound(entries, objects) && Full(entries, objects) && Owned(entries, contexts)
    requires c != 0 && c in contexts && contexts[c]
    requires forall k :: k in entries' <==>
      k in entries && k != Key(Contexts, c) && !(k.kind in INSIDE && c != 0 && entries[k].ctx == c)
    requires forall k :: k in entries' ==> entries'[k] == entries[k]
    ensures var objects', contexts' := Outside(objects, c), contexts - {c};
            && Housed(objects', contexts') && Sound(entries', objects') && Full(entries', objects')
            && Owned(entries', contexts')
  {
  }

  class Session {
    const inv: Inventory
    // The driver's: the created contexts there are, whether they are this session's, and what is in them.
    var contexts: map<Ctx, bool>
    var objects: map<Key, Obj>

    ghost predicate Valid()
      reads this, inv
    {
      && inv.Valid() && 0 !in contexts
      && (forall c :: c in contexts ==> c !in inv.primaryDev)
      && Housed(objects, contexts) && Sound(inv.entries, objects) && Full(inv.entries, objects)
      && Owned(inv.entries, contexts)
    }

    constructor (inv: Inventory)
      requires inv.Valid() && inv.entries == map[]
      ensures Valid() && this.inv == inv && contexts == map[] && objects == map[]
    {
      this.inv := inv;
      contexts, objects := map[], map[];
    }

    /** w_cuCtxCreate_v2. */
    method CreateContext(c: Ctx)
      requires Valid() && c != 0 && c !in contexts && c !in inv.primaryDev
      modifies this`contexts, inv`entries, inv`byCtx
      ensures Valid() && contexts == old(contexts)[c := true]
    {
      contexts := contexts[c := true];
      var st := inv.StampContext(c);
      inv.Note(Contexts, c, st);
    }

    /** w_cuCtxDestroy_v2: the driver takes everything inside the context with it. */
    method DestroyContext(c: Ctx)
      requires Valid() && c in contexts && contexts[c]
      modifies this`contexts, this`objects, inv`entries, inv`byCtx, inv`captures
      ensures Valid() && contexts == old(contexts) - {c}
      ensures forall k :: k in objects <==> k in old(objects) && old(objects)[k].ctx != c
      ensures forall k :: k in objects ==> objects[k] == old(objects)[k]
    {
      contexts := contexts - {c};
      objects := Outside(objects, c);
      inv.ForgetContext(c);
      TornDown(old(inv.entries), inv.entries, old(contexts), old(objects), c);
      hide Housed, Sound, Full, Owned;
    }

    /** Something is made in the context that is current, at an address free at that moment. */
    method Make(kind: Kind, c: Ctx, h: Handle)
      requires Valid() && kind in INSIDE && c in contexts && contexts[c] && h != 0 && Key(kind, h) !in objects
      modifies this`objects, inv`entries, inv`byCtx
      ensures Valid() && objects == old(objects)[Key(kind, h) := Obj(c, true)]
    {
      var st := inv.StampContext(c);
      objects := objects[Key(kind, h) := Obj(c, true)];
      inv.Note(kind, h, st);
    }

    /**
      Something is made from an object the session did not make, in whatever context that is in: it is
      recorded as already ended, since nobody knows where it lives.
     */
    method MakeFromAnothers(kind: Kind, source: Handle, c: Ctx, h: Handle, current: Ctx)
      requires Valid() && kind in INSIDE && c in contexts && !contexts[c] && h != 0 && Key(kind, h) !in objects
      requires source != 0 && Key(kind, source) !in inv.entries
      modifies this`objects, inv`entries, inv`byCtx
      ensures Valid() && objects == old(objects)[Key(kind, h) := Obj(c, false)]
      ensures Key(kind, h) in inv.entries && !Releases(Key(kind, h))
    {
      var st := inv.StampOf(kind, source, current);
      objects := objects[Key(kind, h) := Obj(c, false)];
      inv.Note(kind, h, st);
    }

    /** The client frees what it made. */
    method Free(kind: Kind, h: Handle)
      requires Valid() && kind in INSIDE && (Key(kind, h) in objects ==> objects[Key(kind, h)].own)
      modifies this`objects, inv`entries, inv`byCtx
      ensures Valid() && objects == old(objects) - {Key(kind, h)}
    {
      if Key(kind, h) in objects {
        objects := objects - {Key(kind, h)};
        inv.Forget(kind, h);
      }
    }

    // --- the other sessions of the process --------------------------------------

    method CreateElsewhere(c: Ctx)
      requires Valid() && c != 0 && c !in contexts && c !in inv.primaryDev
      modifies this`contexts
      ensures Valid() && contexts == old(contexts)[c := false]
    {
      contexts := contexts[c := false];
    }

    method DestroyElsewhere(c: Ctx)
      requires Valid() && c in contexts && !contexts[c]
      modifies this`contexts, this`objects
      ensures Valid() && contexts == old(contexts) - {c}
    {
      contexts := contexts - {c};
      objects := Outside(objects, c);
    }

    method MakeElsewhere(kind: Kind, c: Ctx, h: Handle)
      requires Valid() && kind in INSIDE && c in contexts && !contexts[c] && h != 0 && Key(kind, h) !in objects
      modifies this`objects
      ensures Valid() && objects == old(objects)[Key(kind, h) := Obj(c, false)]
    {
      objects := objects[Key(kind, h) := Obj(c, false)];
    }

    method FreeElsewhere(kind: Kind, h: Handle)
      requires Valid() && Key(kind, h) in objects && !objects[Key(kind, h)].own
      modifies this`objects
      ensures Valid() && objects == old(objects) - {Key(kind, h)}
    {
      objects := objects - {Key(kind, h)};
    }

    // --- expiry -------------------------------------------------------------------

    /** release_items and unless_destroyed, for what was not made in a primary context. */
    predicate Releases(k: Key)
      requires k in inv.entries
      reads this, inv
    {
      k.kind in INSIDE && Plain(inv.entries[k])
    }

    /**
      Expiry: every destroy it issues is of something that exists and that this session made, each
      once, and nothing the session made in a context of its own is left.
     */
    method Expire() returns (destroyed: seq<Key>)
      requires Valid()
      modifies this`objects
      ensures forall i :: 0 <= i < |destroyed| ==> destroyed[i] in old(objects) && old(objects)[destroyed[i]].own
      ensures forall i, j :: 0 <= i < j < |destroyed| ==> destroyed[i] != destroyed[j]
      ensures forall k :: k in objects <==> k in old(objects) && !old(objects)[k].own
      ensures forall k :: k in objects ==> objects[k] == old(objects)[k]
    {
      destroyed := [];
      var left := inv.entries.Keys;
      while left != {}
        invariant left <= inv.entries.Keys
        invariant forall k :: k in objects <==>
          k in old(objects) && (old(objects)[k].own ==> k in left)
        invariant forall k :: k in objects ==> objects[k] == old(objects)[k]
        invariant forall i :: 0 <= i < |destroyed| ==>
          destroyed[i] in old(objects) && old(objects)[destroyed[i]].own && destroyed[i] !in left
        invariant forall i, j :: 0 <= i < j < |destroyed| ==> destroyed[i] != destroyed[j]
        decreases |left|
      {
        var k :| k in left;
        left := left - {k};
        if Releases(k) {
          destroyed := destroyed + [k];
          objects := objects - {k};
        }
      }
    }
  }
}
