/** How the coverage of requests by frames moves as frames are written, read and lost. */
module Coverage {
  import opened Wire
  import opened ProtocolInvariant

  lemma HoldsAppend(a: seq<Frame>, b: seq<Frame>, m: nat)
    ensures Holds(a + b, m) <==> Holds(a, m) || Holds(b, m)
  {
    if Holds(a, m) {
      var i :| 0 <= i < |a| && a[i].place == m;
      assert (a + b)[i].place == m;
    }
    if Holds(b, m) {
      var i :| 0 <= i < |b| && b[i].place == m;
      assert (a + b)[|a| + i].place == m;
    }
  }

  lemma CoveredBy(a: seq<Frame>, b: seq<Frame>, minted: nat, done: nat, abandoned: set<nat>)
    requires AllCovered(a, minted, done, abandoned)
    requires forall i :: 0 <= i < |a| ==> a[i] in b || Settled(a[i].place, done, abandoned)
    ensures AllCovered(b, minted, done, abandoned)
  {
    forall m | 1 <= m <= minted ensures Settled(m, done, abandoned) || Holds(b, m) {
      if !Settled(m, done, abandoned) {
        var i :| 0 <= i < |a| && a[i].place == m;
        assert a[i] in b;
      }
    }
  }

  lemma CoveredNext(a: seq<Frame>, f: Frame, done: nat, abandoned: set<nat>)
    requires f.place >= 1 && AllCovered(a, f.place - 1, done, abandoned)
    ensures AllCovered(a + [f], f.place, done, abandoned)
  {
    forall m | 1 <= m <= f.place ensures Settled(m, done, abandoned) || Holds(a + [f], m) {
      HoldsAppend(a, [f], m);
      if m == f.place {
        assert [f][0].place == m;
      }
    }
  }

  /** Frames written behind those already on the connection. */
  lemma UpExtended(up: seq<Frame>, fs: seq<Frame>, minted: nat, done: nat, abandoned: set<nat>)
    requires UpCovered(up, done, abandoned) && AllCovered(up + fs, minted, done, abandoned)
    requires Ordered(up + fs) && forall i :: 0 <= i < |fs| ==> fs[i].place <= minted
    ensures UpCovered(up + fs, done, abandoned)
  {
    var w := up + fs;
    forall i, m | 0 <= i < |w| && 1 <= m < w[i].place
      ensures Settled(m, done, abandoned) || Holds(w[..i], m)
    {
      if i < |up| {
        assert w[..i] == up[..i];
      } else if !Settled(m, done, abandoned) {
        var j :| 0 <= j < |w| && w[j].place == m;
        assert j < i;
        assert w[..i][j].place == m;
      }
    }
  }

  lemma UpPrefix(up: seq<Frame>, n: nat, done: nat, abandoned: set<nat>)
    requires UpCovered(up, done, abandoned) && n <= |up|
    ensures UpCovered(up[..n], done, abandoned)
  {
    forall i, m | 0 <= i < n && 1 <= m < up[i].place
      ensures Settled(m, done, abandoned) || Holds(up[..n][..i], m)
    {
      assert up[..n][..i] == up[..i];
    }
  }

  lemma UpRest(up: seq<Frame>, done: nat, abandoned: set<nat>)
    requires up != [] && UpCovered(up, done, abandoned)
    requires Settled(up[0].place, done, abandoned)
    ensures UpCovered(up[1..], done, abandoned)
  {
    var r := up[1..];
    forall i, m | 0 <= i < |r| && 1 <= m < r[i].place
      ensures Settled(m, done, abandoned) || Holds(r[..i], m)
    {
      if !Settled(m, done, abandoned) {
        assert r[i] == up[i + 1];
        var j :| 0 <= j < |up[..i + 1]| && up[..i + 1][j].place == m;
        assert r[..i][j - 1].place == m;
      }
    }
  }

  lemma UpStays(up: seq<Frame>, done: nat, abandoned: set<nat>, done': nat, abandoned': set<nat>)
    requires UpCovered(up, done, abandoned) && done <= done' && abandoned <= abandoned'
    ensures UpCovered(up, done', abandoned')
  {
    forall i, m | 0 <= i < |up| && 1 <= m < up[i].place
      ensures Settled(m, done', abandoned') || Holds(up[..i], m)
    {
      assert Settled(m, done, abandoned) || Holds(up[..i], m);
    }
  }

  lemma CoverStays(fs: seq<Frame>, minted: nat, done: nat, abandoned: set<nat>, done': nat, abandoned': set<nat>)
    requires AllCovered(fs, minted, done, abandoned) && done <= done' && abandoned <= abandoned'
    ensures AllCovered(fs, minted, done', abandoned')
  {
  }
}
