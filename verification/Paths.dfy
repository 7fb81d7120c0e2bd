/** Reachability in a finite directed graph given by a successor function. */
module Paths {

  /** A nonempty walk that follows the edges of the graph. */
  ghost predicate IsWalk<T>(succ: T -> set<T>, p: seq<T>) {
    && |p| > 0
    && forall i :: 0 <= i < |p| - 1 ==> p[i + 1] in succ(p[i])
  }

  ghost predicate Connects<T>(succ: T -> set<T>, p: seq<T>, x: T, y: T) {
    IsWalk(succ, p) && p[0] == x && p[|p| - 1] == y
  }

  /** y is reachable from x in zero or more steps. */
  ghost predicate Reaches<T(!new)>(succ: T -> set<T>, x: T, y: T) {
    exists p: seq<T> :: Connects(succ, p, x, y)
  }

  lemma ReachesSelf<T(!new)>(succ: T -> set<T>, x: T)
    ensures Reaches(succ, x, x)
  {
    assert Connects(succ, [x], x, x);
  }

  lemma ReachesEdge<T(!new)>(succ: T -> set<T>, x: T, y: T)
    requires y in succ(x)
    ensures Reaches(succ, x, y)
  {
    assert Connects(succ, [x, y], x, y);
  }

  lemma ReachesTrans<T(!new)>(succ: T -> set<T>, x: T, y: T, z: T)
    requires Reaches(succ, x, y) && Reaches(succ, y, z)
    ensures Reaches(succ, x, z)
  {
    var p :| Connects(succ, p, x, y);
    var q :| Connects(succ, q, y, z);
    var w := p + q[1..];
    forall i | 0 <= i < |w| - 1 ensures w[i + 1] in succ(w[i]) {
      if i < |p| - 1 {
        assert p[i + 1] in succ(p[i]);
      } else {
        assert q[i - |p| + 2] in succ(q[i - |p| + 1]);
      }
    }
    assert Connects(succ, w, x, z);
  }

  /** A set that contains x and is closed under successors contains everything x reaches. */
  lemma ClosedUnderReaches<T(!new)>(succ: T -> set<T>, closed: iset<T>, x: T, y: T)
    requires x in closed && forall u, v :: u in closed && v in succ(u) ==> v in closed
    requires Reaches(succ, x, y)
    ensures y in closed
  {
    var p :| Connects(succ, p, x, y);
    var i := 0;
    while i < |p| - 1
      invariant 0 <= i < |p| && p[i] in closed
    {
      assert p[i + 1] in succ(p[i]);
      i := i + 1;
    }
  }

  /** Reaching y from x means being y already, or reaching y from a successor of x. */
  lemma ReachesUnfold<T(!new)>(succ: T -> set<T>, x: T, y: T)
    ensures Reaches(succ, x, y) <==> x == y || exists z :: z in succ(x) && Reaches(succ, z, y)
  {
    if Reaches(succ, x, y) && x != y {
      var p :| Connects(succ, p, x, y);
      assert p[1] in succ(p[0]);
      assert Connects(succ, p[1..], p[1], y);
    }
    if x == y {
      ReachesSelf(succ, x);
    }
    if z :| z in succ(x) && Reaches(succ, z, y) {
      ReachesEdge(succ, x, z);
      ReachesTrans(succ, x, z, y);
    }
  }
}
