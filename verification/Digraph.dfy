/**
 * The one-pass digraph algorithm of DeRemer and Pennello, which the LALR
 * table generator runs for its Read and Follow sets: depth-first search that
 * merges set values along edges and closes a strongly connected component
 * when its root is left.
 */
module Digraph {
  import opened Finite
  import opened Paths

  /** Marks a node whose component has been closed (sys.maxsize of a 64-bit host). */
  const MAXINT: int := 0x7fff_ffff_ffff_ffff

  /** The three inputs of digraph(): the nodes X, the relation R and the function F'. */
  datatype Problem<!T(==), !S> = Problem(nodes: seq<T>, rel: T -> seq<T>, base: T -> seq<S>) {
    function Succ(x: T): set<T> {
      set y | y in rel(x)
    }

    ghost function SuccFn(): T -> set<T> {
      x => Succ(x)
    }
  }

  /** R never leads out of X, and X is small enough for depths to stay below MAXINT. */
  ghost predicate WellFormed<T(!new), S(!new)>(g: Problem<T, S>) {
    && (forall x, y :: x in g.nodes && y in g.rel(x) ==> y in g.nodes)
    && |g.nodes| < MAXINT
  }

  ghost predicate Reach<T(!new), S(!new)>(g: Problem<T, S>, x: T, y: T) {
    Reaches(g.SuccFn(), x, y)
  }

  lemma ReachEdge<T(!new), S(!new)>(g: Problem<T, S>, x: T, y: T)
    requires y in g.rel(x)
    ensures Reach(g, x, y)
  {
    ReachesEdge(g.SuccFn(), x, y);
  }

  lemma ReachTrans<T(!new), S(!new)>(g: Problem<T, S>, x: T, y: T, z: T)
    requires Reach(g, x, y) && Reach(g, y, z)
    ensures Reach(g, x, z)
  {
    ReachesTrans(g.SuccFn(), x, y, z);
  }

  /** The answer wanted for x: the union of F'(y) over everything x reaches. */
  ghost predicate InUnion<T(!new), S(!new)>(g: Problem<T, S>, x: T, s: S) {
    exists y :: Reach(g, x, y) && s in g.base(y)
  }

  lemma InUnionVia<T(!new), S(!new)>(g: Problem<T, S>, x: T, y: T, s: S)
    requires Reach(g, x, y) && InUnion(g, y, s)
    ensures InUnion(g, x, s)
  {
    var z :| Reach(g, y, z) && s in g.base(z);
    ReachTrans(g, x, y, z);
  }

  lemma InUnionBase<T(!new), S(!new)>(g: Problem<T, S>, x: T, s: S)
    requires s in g.base(x)
    ensures InUnion(g, x, s)
  {
    ReachesSelf(g.SuccFn(), x);
    assert Reach(g, x, x);
  }

  /** s occurs in a list exactly when it belongs to the wanted answer for x. */
  ghost predicate Exact<T(!new), S(!new)>(g: Problem<T, S>, x: T, list: seq<S>) {
    forall s :: s in list <==> InUnion(g, x, s)
  }

  ghost predicate Sound<T(!new), S(!new)>(g: Problem<T, S>, x: T, list: seq<S>) {
    forall s :: s in list ==> InUnion(g, x, s)
  }

  ghost predicate Within<S>(a: seq<S>, b: seq<S>) {
    forall s :: s in a ==> s in b
  }

  // ----- the state of the search, as a value

  /** The dictionaries N and F and the stack that the calls of traverse() share. */
  datatype State<!T(==), !S> = State(N: map<T, int>, stack: seq<T>, F: map<T, seq<S>>) {
    /** x has been visited but its component is still open. */
    ghost predicate Open(x: T) {
      x in N && N[x] != 0 && N[x] != MAXINT
    }

    ghost predicate Closed(x: T) {
      x in N && N[x] == MAXINT
    }

    ghost predicate Visited(x: T) {
      x in N && N[x] != 0
    }
  }

  /** Numbers, stack and lists fit together. */
  ghost predicate Numbering<T(!new), S(!new)>(g: Problem<T, S>, s: State<T, S>) {
    && s.N.Keys == (set x | x in g.nodes)
    && (forall i, j :: 0 <= i < j < |s.stack| ==> s.stack[i] != s.stack[j])
    && (forall i :: 0 <= i < |s.stack| ==> s.stack[i] in s.N && 1 <= s.N[s.stack[i]] <= i + 1)
    && (forall x :: x in s.N && x !in s.stack ==> s.N[x] == 0 || s.N[x] == MAXINT)
    && (forall x :: x in s.F <==> s.Visited(x))
    && |s.stack| < MAXINT
  }

  /** A closed node has only closed successors and its list is final. */
  ghost predicate ClosedExact<T(!new), S(!new)>(g: Problem<T, S>, s: State<T, S>) {
    forall x :: s.Closed(x) && x in s.F ==>
      (forall y :: y in g.rel(x) ==> s.Closed(y)) && Exact(g, x, s.F[x])
  }

  /** Every entry reaches all entries from the one its number names upward. */
  ghost predicate StackReach<T(!new), S(!new)>(g: Problem<T, S>, s: State<T, S>) {
    forall i, k :: 0 <= i < |s.stack| && 0 <= k < |s.stack| && s.stack[i] in s.N && s.N[s.stack[i]] <= k + 1 ==>
      Reach(g, s.stack[i], s.stack[k])
  }

  ghost predicate StackSound<T(!new), S(!new)>(g: Problem<T, S>, s: State<T, S>) {
    forall i :: 0 <= i < |s.stack| && s.stack[i] in s.F ==> Sound(g, s.stack[i], s.F[s.stack[i]])
  }

  ghost predicate Inv<T(!new), S(!new)>(g: Problem<T, S>, s: State<T, S>) {
    Numbering(g, s) && ClosedExact(g, s) && StackReach(g, s) && StackSound(g, s)
  }

  /** Edge target y of a stacked node has been dealt with, as far as number n and list f go. */
  ghost predicate Merged<T(!new), S(!new)>(s: State<T, S>, y: T, n: int, f: seq<S>) {
    && s.Visited(y)
    && (forall k :: 0 <= k < |s.stack| && s.stack[k] == y ==> n <= k + 1)
    && (s.Closed(y) && y in s.F ==> Within(s.F[y], f))
  }

  /** The entry at i is finished: its number is low enough for its edges, and f holds its share. */
  ghost predicate FinishedAt<T(!new), S(!new)>(g: Problem<T, S>, s: State<T, S>, i: int, f: seq<S>)
    requires 0 <= i < |s.stack|
  {
    && s.stack[i] in s.N && s.N[s.stack[i]] < i + 1
    && Within(g.base(s.stack[i]), f)
    && forall y :: y in g.rel(s.stack[i]) ==> Merged(s, y, s.N[s.stack[i]], f)
  }

  ghost predicate FinishedFrom<T(!new), S(!new)>(g: Problem<T, S>, s: State<T, S>, lo: int, n: int, f: seq<S>) {
    forall i :: 0 <= lo <= i < |s.stack| ==> FinishedAt(g, s, i, f) && n <= s.N[s.stack[i]]
  }

  /** All a search step leaves alone: the stack below it, and the entries of visited nodes other than x. */
  ghost predicate Preserves<T(!new), S(!new)>(s0: State<T, S>, s: State<T, S>, except: set<T>) {
    && s0.stack <= s.stack
    && s.N.Keys == s0.N.Keys
    && (forall z :: s0.Visited(z) && z !in except ==> s.N[z] == s0.N[z])
    && (forall z :: s0.Visited(z) && z !in except && z in s0.F ==> z in s.F && s.F[z] == s0.F[z])
    && (forall x :: x in except ==> s0.Open(x) && s.Open(x) && x in s0.stack)
  }

  ghost function White<T>(N: map<T, int>): set<T> {
    set x | x in N && N[x] == 0
  }

  lemma StackFits<T(!new), S(!new)>(g: Problem<T, S>, stack: seq<T>)
    requires forall i, j :: 0 <= i < j < |stack| ==> stack[i] != stack[j]
    requires forall i :: 0 <= i < |stack| ==> stack[i] in g.nodes
    ensures |stack| <= |g.nodes|
  {
    DistinctCard(stack);
    SetCard(g.nodes);
    SubsetCard(set x | x in stack, set x | x in g.nodes);
  }

  // ----- the argument for closing a component

  /** x at stack index lo still has its depth as number, all its edges are merged and all above it is finished. */
  ghost predicate RootDone<T(!new), S(!new)>(g: Problem<T, S>, s: State<T, S>, lo: int, f: seq<S>) {
    && 0 <= lo < |s.stack| && s.stack[lo] in s.N && s.N[s.stack[lo]] == lo + 1
    && FinishedFrom(g, s, lo + 1, lo + 1, f)
    && Within(g.base(s.stack[lo]), f)
    && forall z :: z in g.rel(s.stack[lo]) ==> Merged(s, z, lo + 1, f)
  }

  /** The component of the root and the closed nodes whose lists are in f. */
  ghost predicate Covered<T(!new), S(!new)>(s: State<T, S>, lo: int, f: seq<S>, z: T) {
    (exists i :: 0 <= lo <= i < |s.stack| && s.stack[i] == z) || (s.Closed(z) && z in s.F && Within(s.F[z], f))
  }

  lemma CoveredClosed<T(!new), S(!new)>(g: Problem<T, S>, s: State<T, S>, lo: int, f: seq<S>, u: T, v: T)
    requires Numbering(g, s) && ClosedExact(g, s) && RootDone(g, s, lo, f)
    requires Covered(s, lo, f, u) && v in g.rel(u)
    ensures Covered(s, lo, f, v)
  {
    hide Reach;
    hide InUnion;
    if i :| lo <= i < |s.stack| && s.stack[i] == u {
      hide Exact;
      hide Within;
      assert Merged(s, v, s.N[u], f) && s.N[u] >= lo + 1;
      if v in s.stack {
        var k :| 0 <= k < |s.stack| && s.stack[k] == v;
        assert k >= lo;
      }
    } else {
      assert s.Closed(v) && Exact(g, u, s.F[u]) && Exact(g, v, s.F[v]);
      ReachEdge(g, u, v);
      forall a | a in s.F[v] ensures a in f {
        InUnionVia(g, u, v, a);
      }
    }
  }

  /** Whatever the root reaches is on the stack from lo upward or closed, with its share in f. */
  lemma ComponentComplete<T(!new), S(!new)>(g: Problem<T, S>, s: State<T, S>, lo: int, f: seq<S>, y: T)
    requires Numbering(g, s) && ClosedExact(g, s) && RootDone(g, s, lo, f)
    requires Reach(g, s.stack[lo], y)
    ensures Within(g.base(y), f)
  {
    var closed := iset z | Covered(s, lo, f, z);
    assert Covered(s, lo, f, s.stack[lo]);
    forall u, v | u in closed && v in g.SuccFn()(u)
      ensures v in closed
    {
      CoveredClosed(g, s, lo, f, u, v);
    }
    ClosedUnderReaches(g.SuccFn(), closed, s.stack[lo], y);
    hide Reach;
    hide InUnion;
    if i :| lo <= i < |s.stack| && s.stack[i] == y {
    } else {
      assert Exact(g, y, s.F[y]);
      forall a | a in g.base(y) ensures a in f {
        InUnionBase(g, y, a);
      }
    }
  }

  /** Hence the root's list is exact for every member of the component. */
  lemma ComponentExact<T(!new), S(!new)>(g: Problem<T, S>, s: State<T, S>, lo: int, i: int)
    requires Inv(g, s) && 0 <= lo <= i < |s.stack| && RootDone(g, s, lo, s.F[s.stack[lo]])
    requires Reach(g, s.stack[i], s.stack[lo])
    ensures Exact(g, s.stack[i], s.F[s.stack[lo]])
  {
    var f := s.F[s.stack[lo]];
    assert Reach(g, s.stack[lo], s.stack[i]);
    forall a ensures a in f <==> InUnion(g, s.stack[i], a) {
      if a in f {
        assert Sound(g, s.stack[lo], f);
        InUnionVia(g, s.stack[i], s.stack[lo], a);
      }
      if InUnion(g, s.stack[i], a) {
        var y :| Reach(g, s.stack[i], y) && a in g.base(y);
        ReachTrans(g, s.stack[lo], s.stack[i], y);
        ComponentComplete(g, s, lo, f, y);
      }
    }
  }

  // ----- one call of traverse(), step by step

  /** traverse(x), with x at stack index lo, has merged its first j edges. */
  ghost predicate Exploring<T(!new), S(!new)>(g: Problem<T, S>, s: State<T, S>, lo: int, x: T, j: int) {
    && Inv(g, s)
    && 0 <= lo < |s.stack| && s.stack[lo] == x && s.N[x] <= lo + 1
    && (forall i :: 0 <= i < |s.stack| ==> Reach(g, s.stack[i], x))
    && FinishedFrom(g, s, lo + 1, s.N[x], s.F[x])
    && Within(g.base(x), s.F[x])
    && (forall k :: 0 <= k < j && k < |g.rel(x)| ==> Merged(s, g.rel(x)[k], s.N[x], s.F[x]))
  }

  /** What traverse(y) returns with, when it was entered with a stack of height lo. */
  ghost predicate Traversed<T(!new), S(!new)>(g: Problem<T, S>, s: State<T, S>, lo: int, y: T) {
    && Inv(g, s)
    && (s.Closed(y) ==> |s.stack| == lo)
    && (!s.Closed(y) ==>
          && 0 < lo < |s.stack| && s.stack[lo] == y
          && (forall i :: lo <= i < |s.stack| ==> Reach(g, s.stack[i], s.stack[lo - 1]))
          && FinishedFrom(g, s, lo, s.N[y], s.F[y]))
  }

  function Pushed<T(==), S>(g: Problem<T, S>, s0: State<T, S>, x: T): State<T, S> {
    State(s0.N[x := |s0.stack| + 1], s0.stack + [x], s0.F[x := g.base(x)])
  }

  lemma PushedNumbering<T(!new), S(!new)>(g: Problem<T, S>, s0: State<T, S>, x: T)
    requires WellFormed(g) && Numbering(g, s0) && x in s0.N && s0.N[x] == 0
    ensures Numbering(g, Pushed(g, s0, x))
  {
    var s := Pushed(g, s0, x);
    assert forall i :: 0 <= i < |s.stack| ==> s.stack[i] in g.nodes;
    assert x !in s0.stack;
    StackFits(g, s.stack);
  }

  lemma PushedReach<T(!new), S(!new)>(g: Problem<T, S>, s0: State<T, S>, x: T)
    requires Numbering(g, s0) && StackReach(g, s0) && x !in s0.stack && x in s0.N
    requires forall i :: 0 <= i < |s0.stack| ==> Reach(g, s0.stack[i], x)
    ensures StackReach(g, Pushed(g, s0, x)) && Reach(g, x, x)
  {
    ReachesSelf(g.SuccFn(), x);
    assert Reach(g, x, x);
    hide Reach;
    var s := Pushed(g, s0, x);
    forall i, k | 0 <= i < |s.stack| && 0 <= k < |s.stack| && s.N[s.stack[i]] <= k + 1
      ensures Reach(g, s.stack[i], s.stack[k])
    {
    }
  }

  lemma PushedSound<T(!new), S(!new)>(g: Problem<T, S>, s0: State<T, S>, x: T)
    requires StackSound(g, s0)
    ensures StackSound(g, Pushed(g, s0, x))
  {
    forall a | a in g.base(x) ensures InUnion(g, x, a) {
      InUnionBase(g, x, a);
    }
    hide InUnion;
  }

  lemma PushedClosed<T(!new), S(!new)>(g: Problem<T, S>, s0: State<T, S>, x: T)
    requires ClosedExact(g, s0) && x in s0.N && s0.N[x] == 0 && |s0.stack| + 1 < MAXINT
    ensures ClosedExact(g, Pushed(g, s0, x))
  {
    hide Exact;
  }

  lemma PushedInv<T(!new), S(!new)>(g: Problem<T, S>, s0: State<T, S>, x: T)
    requires WellFormed(g) && Inv(g, s0) && x in s0.N && s0.N[x] == 0
    requires forall i :: 0 <= i < |s0.stack| ==> Reach(g, s0.stack[i], x)
    ensures Inv(g, Pushed(g, s0, x)) && Reach(g, x, x)
  {
    hide Reach;
    hide ClosedExact;
    hide StackReach;
    hide StackSound;
    assert x !in s0.stack;
    PushedNumbering(g, s0, x);
    PushedReach(g, s0, x);
    PushedSound(g, s0, x);
    PushedClosed(g, s0, x);
  }

  lemma PushedExplores<T(!new), S(!new)>(g: Problem<T, S>, s0: State<T, S>, x: T)
    requires WellFormed(g) && Inv(g, s0) && x in s0.N && s0.N[x] == 0
    requires forall i :: 0 <= i < |s0.stack| ==> Reach(g, s0.stack[i], x)
    ensures Exploring(g, Pushed(g, s0, x), |s0.stack|, x, 0)
    ensures Preserves(s0, Pushed(g, s0, x), {})
    ensures White(Pushed(g, s0, x).N) < White(s0.N)
  {
    hide Reach;
    hide Inv;
    var s := Pushed(g, s0, x);
    PushedInv(g, s0, x);
    assert White(s.N) == White(s0.N) - {x};
    assert forall i :: 0 <= i < |s0.stack| ==> s.stack[i] == s0.stack[i];
  }

  /** A merged edge stays merged while only x's own entries improve. */
  lemma MergedStays<T(!new), S(!new)>(g: Problem<T, S>, s1: State<T, S>, s: State<T, S>, x: T, y: T, n1: int,
      f1: seq<S>, n: int, f: seq<S>)
    requires Numbering(g, s1) && Numbering(g, s) && Preserves(s1, s, {x})
    requires Merged(s1, y, n1, f1) && n <= n1 && Within(f1, f)
    ensures Merged(s, y, n, f)
  {
    forall k | 0 <= k < |s.stack| && s.stack[k] == y ensures n <= k + 1 {
      assert s.N[s.stack[k]] <= k + 1;
      assert s1.Open(y);
      var k1 :| 0 <= k1 < |s1.stack| && s1.stack[k1] == y;
      assert s.stack[k1] == s1.stack[k1];
    }
  }

  lemma FinishedStays<T(!new), S(!new)>(g: Problem<T, S>, s1: State<T, S>, s: State<T, S>, x: T, i: int, f1: seq<S>,
      f: seq<S>)
    requires Numbering(g, s1) && Numbering(g, s) && Preserves(s1, s, {x})
    requires 0 <= i < |s1.stack| && s1.stack[i] != x && Within(f1, f)
    requires FinishedAt(g, s1, i, f1)
    ensures FinishedAt(g, s, i, f) && s.N[s.stack[i]] == s1.N[s1.stack[i]]
  {
    assert s.stack[i] == s1.stack[i];
    assert s1.Open(s1.stack[i]);
    forall y | y in g.rel(s.stack[i]) ensures Merged(s, y, s.N[s.stack[i]], f) {
      MergedStays(g, s1, s, x, y, s1.N[s.stack[i]], f1, s.N[s.stack[i]], f);
    }
  }

  /** The state after edge x -> y: numbers are minimised and y's list is merged into x's. */
  ghost predicate EdgeMerged<T(!new), S(!new)>(s2: State<T, S>, s: State<T, S>, x: T, y: T) {
    && x in s2.N && y in s2.N && x in s2.F && y in s2.F
    && s.N == s2.N[x := if s2.N[y] < s2.N[x] then s2.N[y] else s2.N[x]]
    && s.stack == s2.stack
    && s.F.Keys == s2.F.Keys
    && (forall z :: z in s.F && z != x ==> s.F[z] == s2.F[z])
    && (forall a :: a in s.F[x] <==> a in s2.F[x] || a in s2.F[y])
  }

  /** s1: before edge j of x; s2: its target visited, possibly just now; s: merged. */
  ghost predicate EdgeVisited<T(!new), S(!new)>(g: Problem<T, S>, s1: State<T, S>, s2: State<T, S>, lo: int, x: T,
      j: int) {
    && 0 <= j < |g.rel(x)|
    && Exploring(g, s1, lo, x, j)
    && Preserves(s1, s2, {}) && Inv(g, s2)
    && s2.Visited(g.rel(x)[j])
    && (|s2.stack| == |s1.stack| || Traversed(g, s2, |s1.stack|, g.rel(x)[j]))
  }

  lemma EdgeReady<T(!new), S(!new)>(g: Problem<T, S>, s1: State<T, S>, s2: State<T, S>, lo: int, x: T, j: int)
    requires EdgeVisited(g, s1, s2, lo, x, j)
    ensures 0 <= lo < |s1.stack| <= |s2.stack| && s2.stack[lo] == s1.stack[lo] == x
    ensures x in s2.N && x in s2.F && g.rel(x)[j] in s2.N && g.rel(x)[j] in s2.F
    ensures s2.N[x] == s1.N[x] && s2.F[x] == s1.F[x] && s1.Open(x) && s2.Open(x) && s2.N[x] < MAXINT
  {
    hide Reach;
    hide ClosedExact;
    hide StackSound;
    assert s2.stack[lo] == s1.stack[lo] == x;
  }

  lemma EdgeNumbering<T(!new), S(!new)>(g: Problem<T, S>, s2: State<T, S>, s: State<T, S>, x: T, y: T)
    requires Numbering(g, s2) && x in s2.stack && y in g.rel(x) && s2.Visited(y) && EdgeMerged(s2, s, x, y)
    ensures Numbering(g, s)
  {
    if y in s2.stack {
      var k :| 0 <= k < |s2.stack| && s2.stack[k] == y;
    }
  }

  lemma EdgeStackReach<T(!new), S(!new)>(g: Problem<T, S>, s2: State<T, S>, s: State<T, S>, lo: int, x: T, y: T)
    requires Numbering(g, s2) && StackReach(g, s2) && 0 <= lo < |s2.stack| && s2.stack[lo] == x && y in g.rel(x)
    requires EdgeMerged(s2, s, x, y)
    ensures StackReach(g, s)
  {
    ReachEdge(g, x, y);
    hide Reach;
    forall i, k | 0 <= i < |s.stack| && 0 <= k < |s.stack| && s.N[s.stack[i]] <= k + 1
      ensures Reach(g, s.stack[i], s.stack[k])
    {
      if i == lo && s2.N[y] < s2.N[x] {
        if s2.N[y] != 0 {
          var m :| 0 <= m < |s.stack| && s.stack[m] == y;
          ReachTrans(g, x, s.stack[m], s.stack[k]);
        }
      }
    }
  }

  lemma EdgeSound<T(!new), S(!new)>(g: Problem<T, S>, s2: State<T, S>, s: State<T, S>, lo: int, x: T, y: T)
    requires Numbering(g, s2) && StackSound(g, s2) && ClosedExact(g, s2)
    requires 0 <= lo < |s2.stack| && s2.stack[lo] == x && y in g.rel(x) && EdgeMerged(s2, s, x, y)
    ensures StackSound(g, s)
  {
    ReachEdge(g, x, y);
    hide Reach;
    hide InUnion;
    assert Sound(g, y, s2.F[y]) by {
      if y !in s2.stack { assert s2.Visited(y) && s2.Closed(y) && Exact(g, y, s2.F[y]); }
    }
    forall a | a in s.F[x] ensures InUnion(g, x, a) {
      assert Sound(g, s2.stack[lo], s2.F[s2.stack[lo]]);
      if a in s2.F[y] { InUnionVia(g, x, y, a); }
    }
  }

  lemma EdgeInv<T(!new), S(!new)>(g: Problem<T, S>, s2: State<T, S>, s: State<T, S>, lo: int, x: T, y: T)
    requires Inv(g, s2) && 0 <= lo < |s2.stack| && s2.stack[lo] == x && y in g.rel(x)
    requires s2.Visited(y) && EdgeMerged(s2, s, x, y)
    ensures Inv(g, s)
  {
    hide Numbering;
    hide ClosedExact;
    hide StackReach;
    hide StackSound;
    hide EdgeMerged;
    EdgeNumbering(g, s2, s, x, y);
    EdgeStackReach(g, s2, s, lo, x, y);
    EdgeSound(g, s2, s, lo, x, y);
    EdgeClosed(g, s2, s, lo, x, y);
  }

  lemma EdgeClosed<T(!new), S(!new)>(g: Problem<T, S>, s2: State<T, S>, s: State<T, S>, lo: int, x: T, y: T)
    requires Numbering(g, s2) && ClosedExact(g, s2) && 0 <= lo < |s2.stack| && s2.stack[lo] == x
    requires s2.Visited(y) && EdgeMerged(s2, s, x, y)
    ensures ClosedExact(g, s)
  {
    hide Reach;
    hide Exact;
    assert s2.Open(s2.stack[lo]);
  }

  lemma EdgePreserves<T(!new), S(!new)>(g: Problem<T, S>, s1: State<T, S>, s2: State<T, S>, s: State<T, S>, lo: int,
      x: T, j: int)
    requires EdgeVisited(g, s1, s2, lo, x, j) && EdgeMerged(s2, s, x, g.rel(x)[j])
    ensures Preserves(s1, s, {x}) && Preserves(s2, s, {x}) && White(s.N) <= White(s1.N)
  {
    hide Reach;
    hide Inv;
    hide Exploring;
    hide Traversed;
    hide Within;
    EdgeReady(g, s1, s2, lo, x, j);
  }

  lemma EdgeReach<T(!new), S(!new)>(g: Problem<T, S>, s1: State<T, S>, s2: State<T, S>, lo: int, x: T, j: int, i: int)
    requires EdgeVisited(g, s1, s2, lo, x, j) && 0 <= i < |s2.stack|
    ensures Reach(g, s2.stack[i], x)
  {
    hide Reach;
    var last := |s1.stack| - 1;
    assert s2.stack[last] == s1.stack[last];
    if i <= last {
      assert s2.stack[i] == s1.stack[i];
    } else {
      ReachTrans(g, s2.stack[i], s2.stack[last], x);
    }
  }

  lemma EdgeFinished<T(!new), S(!new)>(g: Problem<T, S>, s1: State<T, S>, s2: State<T, S>, s: State<T, S>, lo: int,
      x: T, j: int, i: int)
    requires EdgeVisited(g, s1, s2, lo, x, j) && EdgeMerged(s2, s, x, g.rel(x)[j])
    requires Inv(g, s) && lo + 1 <= i < |s.stack|
    ensures FinishedAt(g, s, i, s.F[x]) && s.N[x] <= s.N[s.stack[i]]
  {
    hide Reach;
    hide ClosedExact;
    hide StackSound;
    hide StackReach;
    hide Merged;
    hide InUnion;
    EdgeReady(g, s1, s2, lo, x, j);
    EdgePreserves(g, s1, s2, s, lo, x, j);
    if i < |s1.stack| {
      assert s.stack[i] == s1.stack[i] && FinishedAt(g, s1, i, s1.F[x]);
      FinishedStays(g, s1, s, x, i, s1.F[x], s.F[x]);
    } else {
      var y := g.rel(x)[j];
      assert FinishedAt(g, s2, i, s2.F[y]) && s2.N[y] <= s2.N[s2.stack[i]];
      FinishedStays(g, s2, s, x, i, s2.F[y], s.F[x]);
    }
  }

  lemma EdgeEdges<T(!new), S(!new)>(g: Problem<T, S>, s1: State<T, S>, s2: State<T, S>, s: State<T, S>, lo: int, x: T,
      j: int, k: int)
    requires EdgeVisited(g, s1, s2, lo, x, j) && EdgeMerged(s2, s, x, g.rel(x)[j])
    requires Inv(g, s) && 0 <= k <= j
    ensures Merged(s, g.rel(x)[k], s.N[x], s.F[x])
  {
    EdgeReady(g, s1, s2, lo, x, j);
    EdgePreserves(g, s1, s2, s, lo, x, j);
    var y := g.rel(x)[k];
    if k < j {
      MergedStays(g, s1, s, x, y, s1.N[x], s1.F[x], s.N[x], s.F[x]);
    } else {
      forall k' | 0 <= k' < |s.stack| && s.stack[k'] == y ensures s.N[x] <= k' + 1 {
        assert s2.N[s2.stack[k']] <= k' + 1;
      }
    }
  }

  lemma EdgeExplored<T(!new), S(!new)>(g: Problem<T, S>, s1: State<T, S>, s2: State<T, S>, s: State<T, S>, lo: int,
      x: T, j: int)
    requires EdgeVisited(g, s1, s2, lo, x, j) && EdgeMerged(s2, s, x, g.rel(x)[j])
    ensures Exploring(g, s, lo, x, j + 1)
  {
    hide Reach;
    hide Merged;
    hide Inv;
    hide Preserves;
    hide Traversed;
    EdgeReady(g, s1, s2, lo, x, j);
    EdgeInv(g, s2, s, lo, x, g.rel(x)[j]);
    forall i | 0 <= i < |s.stack| ensures Reach(g, s.stack[i], x) {
      EdgeReach(g, s1, s2, lo, x, j, i);
    }
    forall i | lo + 1 <= i < |s.stack| ensures FinishedAt(g, s, i, s.F[x]) && s.N[x] <= s.N[s.stack[i]] {
      EdgeFinished(g, s1, s2, s, lo, x, j, i);
    }
    forall k | 0 <= k < j + 1 ensures Merged(s, g.rel(x)[k], s.N[x], s.F[x]) {
      EdgeEdges(g, s1, s2, s, lo, x, j, k);
    }
  }

  // ----- closing a component

  function From<T>(stack: seq<T>, lo: int): set<T> {
    set i | 0 <= lo <= i < |stack| :: stack[i]
  }

  /** The members of gone have been closed with list f; no other entry changed. */
  ghost predicate Popped<T(!new), S(!new)>(s0: State<T, S>, s: State<T, S>, gone: set<T>, f: seq<S>) {
    && s.N.Keys == s0.N.Keys && s.F.Keys == s0.F.Keys
    && (forall z :: z in s.N ==> s.N[z] == if z in gone then MAXINT else s0.N[z])
    && (forall z :: z in s.F ==> s.F[z] == if z in gone then f else s0.F[z])
  }

  lemma PopStep<T(!new), S(!new)>(n: int, s0: State<T, S>, s1: State<T, S>, s: State<T, S>, f: seq<S>)
    requires 0 <= n < |s0.stack| && s0.stack[n] in s0.N && s0.stack[n] in s0.F
    requires Popped(s0, s1, From(s0.stack, n + 1), f)
    requires s.N == s1.N[s0.stack[n] := MAXINT] && s.F == s1.F[s0.stack[n] := f]
    ensures Popped(s0, s, From(s0.stack, n), f)
  {
    assert From(s0.stack, n) == From(s0.stack, n + 1) + {s0.stack[n]};
  }

  lemma PopFirst<T(!new), S(!new)>(s0: State<T, S>, s: State<T, S>, f: seq<S>)
    requires s0.stack != []
    requires var last := s0.stack[|s0.stack| - 1];
      && last in s0.N && last in s0.F && s.N == s0.N[last := MAXINT] && s.F == s0.F[last := f]
    ensures Popped(s0, s, From(s0.stack, |s0.stack| - 1), f)
  {
    PopStep(|s0.stack| - 1, s0, s0, s, f);
  }

  /** The premises for closing: x is a root, and its component has been popped from s1 to s. */
  ghost predicate RootPopped<T(!new), S(!new)>(g: Problem<T, S>, s1: State<T, S>, s: State<T, S>, lo: int, x: T) {
    && Exploring(g, s1, lo, x, |g.rel(x)|) && s1.N[x] == lo + 1
    && Popped(s1, s, From(s1.stack, lo), s1.F[x]) && s.stack == s1.stack[..lo]
  }

  lemma ExploredRoot<T(!new), S(!new)>(g: Problem<T, S>, s: State<T, S>, lo: int, x: T)
    requires Exploring(g, s, lo, x, |g.rel(x)|)
    ensures forall y :: y in g.rel(x) ==> Merged(s, y, s.N[x], s.F[x])
    ensures s.N[x] == lo + 1 ==> RootDone(g, s, lo, s.F[x])
  {
    hide Reach;
    hide Merged;
    hide FinishedAt;
    forall y | y in g.rel(x) ensures Merged(s, y, s.N[x], s.F[x]) {
      var k :| 0 <= k < |g.rel(x)| && g.rel(x)[k] == y;
    }
  }

  lemma FromSegment<T(!new)>(stack: seq<T>, lo: int)
    requires 0 <= lo <= |stack| && forall i, j :: 0 <= i < j < |stack| ==> stack[i] != stack[j]
    ensures forall i :: lo <= i < |stack| ==> stack[i] in From(stack, lo)
    ensures forall i :: 0 <= i < lo ==> stack[i] !in From(stack, lo)
    ensures forall z :: z in From(stack, lo) ==> z in stack
    ensures forall z :: z in stack ==> z in From(stack, lo) || z in stack[..lo]
    ensures forall z :: z in stack[..lo] ==> z in stack && z !in From(stack, lo)
  {
    forall z | z in stack ensures z in From(stack, lo) || z in stack[..lo] {
      var i :| 0 <= i < |stack| && stack[i] == z;
      assert i < lo ==> stack[..lo][i] == z;
    }
  }

  lemma ClosingEntries<T(!new), S(!new)>(g: Problem<T, S>, s1: State<T, S>, s: State<T, S>, lo: int, f: seq<S>)
    requires Numbering(g, s1) && 0 <= lo < |s1.stack|
    requires Popped(s1, s, From(s1.stack, lo), f) && s.stack == s1.stack[..lo]
    ensures forall x :: x in s.N && x !in s.stack ==> s.N[x] == 0 || s.N[x] == MAXINT
    ensures forall i :: 0 <= i < |s.stack| ==> s.stack[i] in s.N && 1 <= s.N[s.stack[i]] <= i + 1
  {
    hide From;
    FromSegment(s1.stack, lo);
  }

  lemma ClosingKeys<T(!new), S(!new)>(g: Problem<T, S>, s1: State<T, S>, s: State<T, S>, lo: int, f: seq<S>)
    requires Numbering(g, s1) && 0 <= lo < |s1.stack|
    requires Popped(s1, s, From(s1.stack, lo), f) && s.stack == s1.stack[..lo]
    ensures s.N.Keys == (set x | x in g.nodes) && s.Closed(s1.stack[lo])
    ensures forall x :: x in s.F <==> s.Visited(x)
  {
    hide From;
    FromSegment(s1.stack, lo);
    assert s.N.Keys == s1.N.Keys && s.F.Keys == s1.F.Keys;
    forall x ensures x in s.F <==> s.Visited(x) {
      assert x in s1.F <==> s1.Visited(x);
    }
  }

  lemma ClosingNumbers<T(!new), S(!new)>(g: Problem<T, S>, s1: State<T, S>, s: State<T, S>, lo: int, f: seq<S>)
    requires Numbering(g, s1) && 0 <= lo < |s1.stack|
    requires Popped(s1, s, From(s1.stack, lo), f) && s.stack == s1.stack[..lo]
    ensures Numbering(g, s) && s.Closed(s1.stack[lo])
    ensures forall i :: 0 <= i < lo ==> s1.stack[i] !in From(s1.stack, lo)
    ensures forall z :: z in s1.N && s1.N[z] == MAXINT ==> z !in From(s1.stack, lo)
  {
    hide From;
    FromSegment(s1.stack, lo);
    ClosingEntries(g, s1, s, lo, f);
    ClosingKeys(g, s1, s, lo, f);
    hide Popped;
  }

  lemma ClosingExact<T(!new), S(!new)>(g: Problem<T, S>, s1: State<T, S>, s: State<T, S>, lo: int, z: T)
    requires Inv(g, s1) && 0 <= lo < |s1.stack| && RootDone(g, s1, lo, s1.F[s1.stack[lo]])
    requires forall i :: lo <= i < |s1.stack| ==> Reach(g, s1.stack[i], s1.stack[lo])
    requires Popped(s1, s, From(s1.stack, lo), s1.F[s1.stack[lo]]) && z in From(s1.stack, lo)
    ensures Exact(g, z, s1.F[s1.stack[lo]])
    ensures forall y :: y in g.rel(z) ==> s.Closed(y)
  {
    hide Reach;
    hide Exact;
    hide Inv;
    hide Popped;
    var i :| lo <= i < |s1.stack| && s1.stack[i] == z;
    ComponentExact(g, s1, lo, i);
    forall y | y in g.rel(z) ensures s.Closed(y) {
      ClosingEdge(g, s1, s, lo, i, y);
    }
  }

  lemma ClosingEdge<T(!new), S(!new)>(g: Problem<T, S>, s1: State<T, S>, s: State<T, S>, lo: int, i: int, y: T)
    requires Inv(g, s1) && 0 <= lo <= i < |s1.stack| && RootDone(g, s1, lo, s1.F[s1.stack[lo]])
    requires Popped(s1, s, From(s1.stack, lo), s1.F[s1.stack[lo]]) && y in g.rel(s1.stack[i])
    ensures s.Closed(y)
  {
    hide Reach;
    hide Exact;
    hide ClosedExact;
    hide StackReach;
    hide StackSound;
    hide Within;
    assert Merged(s1, y, s1.N[s1.stack[i]], s1.F[s1.stack[lo]]);
    if y in s1.stack {
      var k :| 0 <= k < |s1.stack| && s1.stack[k] == y;
      assert lo + 1 <= k + 1;
    }
  }

  lemma ClosingStack<T(!new), S(!new)>(g: Problem<T, S>, s1: State<T, S>, s: State<T, S>, lo: int, f: seq<S>)
    requires Inv(g, s1) && 0 <= lo < |s1.stack|
    requires Popped(s1, s, From(s1.stack, lo), f) && s.stack == s1.stack[..lo]
    ensures StackReach(g, s) && StackSound(g, s)
  {
    hide Reach;
    hide Sound;
    hide ClosedExact;
    ClosingNumbers(g, s1, s, lo, f);
    hide From;
  }

  lemma ClosingClosed<T(!new), S(!new)>(g: Problem<T, S>, s1: State<T, S>, s: State<T, S>, lo: int)
    requires Inv(g, s1) && 0 <= lo < |s1.stack| && RootDone(g, s1, lo, s1.F[s1.stack[lo]])
    requires forall i :: lo <= i < |s1.stack| ==> Reach(g, s1.stack[i], s1.stack[lo])
    requires Popped(s1, s, From(s1.stack, lo), s1.F[s1.stack[lo]]) && s.stack == s1.stack[..lo]
    ensures ClosedExact(g, s)
  {
    hide Reach;
    hide Exact;
    hide StackReach;
    hide StackSound;
    hide RootDone;
    ClosingNumbers(g, s1, s, lo, s1.F[s1.stack[lo]]);
    forall z | z in From(s1.stack, lo)
      ensures Exact(g, z, s1.F[s1.stack[lo]]) && forall y :: y in g.rel(z) ==> s.Closed(y)
    {
      ClosingExact(g, s1, s, lo, z);
    }
    hide From;
    hide Numbering;
  }

  lemma ClosingInv<T(!new), S(!new)>(g: Problem<T, S>, s1: State<T, S>, s: State<T, S>, lo: int)
    requires Inv(g, s1) && 0 <= lo < |s1.stack| && RootDone(g, s1, lo, s1.F[s1.stack[lo]])
    requires forall i :: lo <= i < |s1.stack| ==> Reach(g, s1.stack[i], s1.stack[lo])
    requires Popped(s1, s, From(s1.stack, lo), s1.F[s1.stack[lo]]) && s.stack == s1.stack[..lo]
    ensures Inv(g, s) && s.Closed(s1.stack[lo])
  {
    hide Reach;
    hide StackReach;
    hide StackSound;
    hide ClosedExact;
    hide RootDone;
    hide Popped;
    hide From;
    ClosingNumbers(g, s1, s, lo, s1.F[s1.stack[lo]]);
    ClosingStack(g, s1, s, lo, s1.F[s1.stack[lo]]);
    ClosingClosed(g, s1, s, lo);
    hide Numbering;
  }

  lemma Closing<T(!new), S(!new)>(g: Problem<T, S>, s1: State<T, S>, s: State<T, S>, lo: int, x: T)
    requires RootPopped(g, s1, s, lo, x)
    ensures Inv(g, s) && Traversed(g, s, lo, x) && s.Closed(x)
  {
    hide Reach;
    hide Inv;
    hide FinishedFrom;
    hide Popped;
    ExploredRoot(g, s1, lo, x);
    ClosingInv(g, s1, s, lo);
  }

  lemma VisitedKept<T(!new), S(!new)>(g: Problem<T, S>, s0: State<T, S>, s1: State<T, S>, lo: int, z: T)
    requires Numbering(g, s0) && Numbering(g, s1) && Preserves(s0, s1, {}) && lo == |s0.stack| < |s1.stack|
    requires s0.Visited(z)
    ensures z !in From(s1.stack, lo)
  {
    assert s1.N[z] == s0.N[z];
    if z in s0.stack {
      var i :| 0 <= i < lo && s0.stack[i] == z;
      assert s1.stack[i] == z;
    }
  }

  lemma PopPreserves<T(!new), S(!new)>(g: Problem<T, S>, s0: State<T, S>, s1: State<T, S>, s: State<T, S>, lo: int,
      f: seq<S>)
    requires Numbering(g, s0) && Numbering(g, s1) && Preserves(s0, s1, {}) && lo == |s0.stack| < |s1.stack|
    requires Popped(s1, s, From(s1.stack, lo), f) && s.stack == s1.stack[..lo]
    ensures Preserves(s0, s, {})
  {
    assert s0.stack == s1.stack[..lo];
    forall z | s0.Visited(z) ensures z !in From(s1.stack, lo) {
      VisitedKept(g, s0, s1, lo, z);
    }
    hide From;
    hide Numbering;
  }

  lemma ClosingPreserves<T(!new), S(!new)>(g: Problem<T, S>, s0: State<T, S>, s1: State<T, S>, s: State<T, S>, lo: int,
      x: T)
    requires Inv(g, s0) && Preserves(s0, s1, {}) && lo == |s0.stack| && RootPopped(g, s1, s, lo, x)
    ensures Preserves(s0, s, {})
  {
    hide Numbering;
    hide Preserves;
    hide Popped;
    ExploredFacts(g, s1, lo, x, |g.rel(x)|);
    PopPreserves(g, s0, s1, s, lo, s1.F[x]);
  }

  lemma Returning<T(!new), S(!new)>(g: Problem<T, S>, s: State<T, S>, lo: int, x: T)
    requires Exploring(g, s, lo, x, |g.rel(x)|) && s.N[x] != lo + 1
    ensures Inv(g, s) && Traversed(g, s, lo, x)
  {
    hide Reach;
    hide ClosedExact;
    hide StackSound;
    ExploredRoot(g, s, lo, x);
    assert Reach(g, s.stack[lo], s.stack[lo - 1]);
    forall i | lo <= i < |s.stack| ensures Reach(g, s.stack[i], s.stack[lo - 1]) {
      ReachTrans(g, s.stack[i], x, s.stack[lo - 1]);
    }
    assert FinishedAt(g, s, lo, s.F[x]);
  }

  lemma ExploredFacts<T(!new), S(!new)>(g: Problem<T, S>, s: State<T, S>, lo: int, x: T, j: int)
    requires Exploring(g, s, lo, x, j)
    ensures 0 <= lo < |s.stack| && s.stack[lo] == x && x in s.N && x in s.F
    ensures forall i :: lo < i < |s.stack| ==> s.stack[i] != x
    ensures forall i :: lo <= i < |s.stack| ==> s.stack[i] in s.N && s.stack[i] in s.F
    ensures forall i :: 0 <= i < |s.stack| ==> Reach(g, s.stack[i], x)
    ensures Inv(g, s) && s.N.Keys == (set x | x in g.nodes)
    ensures s.Open(x) && x in s.stack
  {
  }

  lemma PreservesMore<T(!new), S(!new)>(s0: State<T, S>, s1: State<T, S>, s: State<T, S>, x: T)
    requires Preserves(s0, s1, {}) && Preserves(s1, s, {x}) && x in s0.N && s0.N[x] == 0
    ensures Preserves(s0, s, {})
  {
  }

  // ----- the lists themselves

  /** A list object. Nodes of one component come to share one, and F' may hand out what others hold. */
  class Box<S(==)> {
    var items: seq<S>

    constructor (items: seq<S>)
      ensures this.items == items
    {
      this.items := items;
    }
  }

  /** a, and then what b has beyond it, in order. */
  ghost function Merge<S>(a: seq<S>, b: seq<S>): seq<S> {
    if b == [] then a
    else
      var m, last := Merge(a, b[..|b| - 1]), b[|b| - 1];
      if last in m then m else m + [last]
  }

  lemma {:induction false} MergeHas<S>(a: seq<S>, b: seq<S>)
    ensures forall s :: s in Merge(a, b) <==> s in a || s in b
  {
    if b != [] {
      MergeHas(a, b[..|b| - 1]);
      assert b == b[..|b| - 1] + [b[|b| - 1]];
    }
  }

  lemma {:induction false} MergeNothing<S>(a: seq<S>, b: seq<S>)
    requires Within(b, a)
    ensures Merge(a, b) == a
  {
    if b != [] {
      MergeNothing(a, b[..|b| - 1]);
    }
  }

  /** for a in src: if a not in dest: dest.append(a), where both may be one list. */
  method AppendNew<S(==)>(dest: Box<S>, src: Box<S>)
    modifies dest
    ensures dest.items == Merge(old(dest.items), old(src.items))
  {
    MergeNothing(dest.items, dest.items);
    var k := 0;
    while k < |src.items|
      invariant src.items == old(src.items) && 0 <= k <= |src.items|
      invariant dest.items == if dest == src then old(dest.items) else Merge(old(dest.items), src.items[..k])
    {
      assert src.items[..k + 1][..k] == src.items[..k];
      if src.items[k] !in dest.items {
        dest.items := dest.items + [src.items[k]];
      }
      k := k + 1;
    }
    assert src.items[..k] == src.items;
  }

  /** Nodes of one component. */
  ghost predicate Twin<T(!new), S(!new)>(g: Problem<T, S>, x: T, y: T) {
    Reach(g, x, y) && Reach(g, y, x)
  }

  /**
   * The lists as objects against the lists as values: z holds the list that F'
   * handed out for owner[z], and it has at least what it should; exactly that,
   * if F' handed out a list of its own to each node.
   */
  ghost predicate CoupledAt<T(!new), S(!new)>(g: Problem<T, S>, s: State<T, S>, owner: map<T, T>,
      items: map<T, seq<S>>, apart: bool, z: T)
  {
    z in owner ==>
      && owner[z] in owner && owner[z] in items && z in s.F && Twin(g, z, owner[z])
      && (if z in s.stack then owner[z] == z else owner[z] !in s.stack)
      && Within(s.F[z], items[owner[z]])
      && (apart ==> items[owner[z]] == s.F[z])
  }

  /** What was handed out for z has at least F'(z); exactly that while z has not been visited. */
  ghost predicate GivenAt<T(!new), S(!new)>(g: Problem<T, S>, owner: map<T, T>, items: map<T, seq<S>>, apart: bool,
      z: T)
  {
    z in items ==> Within(g.base(z), items[z]) && (apart && z !in owner ==> items[z] == g.base(z))
  }

  ghost predicate Coupled<T(!new), S(!new)>(g: Problem<T, S>, s: State<T, S>, owner: map<T, T>, items: map<T, seq<S>>,
      apart: bool) {
    && items.Keys == (set x | x in g.nodes) && owner.Keys == s.F.Keys <= items.Keys
    && (forall z :: CoupledAt(g, s, owner, items, apart, z))
    && (forall z :: GivenAt(g, owner, items, apart, z))
  }

  lemma CoupledPush<T(!new), S(!new)>(g: Problem<T, S>, s: State<T, S>, owner: map<T, T>, items: map<T, seq<S>>,
      apart: bool, x: T)
    requires Coupled(g, s, owner, items, apart) && Numbering(g, s) && x in s.N && s.N[x] == 0
    ensures Coupled(g, Pushed(g, s, x), owner[x := x], items, apart)
  {
    hide Twin;
    ReachSelf(g, x);
    assert x !in s.F && x !in s.stack && x in items;
    hide Numbering;
    assert GivenAt(g, owner, items, apart, x);
    hide Within;
    var t, owner' := Pushed(g, s, x), owner[x := x];
    forall z ensures CoupledAt(g, t, owner', items, apart, z) {
      assert CoupledAt(g, s, owner, items, apart, z);
    }
    forall z ensures GivenAt(g, owner', items, apart, z) {
      assert GivenAt(g, owner, items, apart, z);
    }
  }

  lemma ReachSelf<T(!new), S(!new)>(g: Problem<T, S>, x: T)
    ensures Twin(g, x, x)
  {
    ReachesSelf(g.SuccFn(), x);
    assert Reach(g, x, x);
  }

  lemma CoupledMerge<T(!new), S(!new)>(g: Problem<T, S>, s: State<T, S>, t: State<T, S>, owner: map<T, T>,
      items: map<T, seq<S>>, items': map<T, seq<S>>, apart: bool, x: T, y: T)
    requires Coupled(g, s, owner, items, apart) && x in s.stack && x in owner && y in owner && owner[y] in items
    requires t.stack == s.stack && t.F == s.F[x := Merge(s.F[x], s.F[y])]
    requires items'.Keys == items.Keys && forall z :: z in items ==> Within(items[z], items'[z])
    requires items'[x] == Merge(items[x], items[owner[y]])
    requires apart ==> items' == items[x := Merge(items[x], items[owner[y]])]
    ensures Coupled(g, t, owner, items', apart)
  {
    hide Twin;
    hide Merge;
    assert CoupledAt(g, s, owner, items, apart, x) && CoupledAt(g, s, owner, items, apart, y);
    MergeHas(s.F[x], s.F[y]);
    MergeHas(items[x], items[owner[y]]);
    forall z ensures CoupledAt(g, t, owner, items', apart, z) {
      assert CoupledAt(g, s, owner, items, apart, z);
    }
    forall z ensures GivenAt(g, owner, items', apart, z) {
      assert GivenAt(g, owner, items, apart, z);
    }
  }

  lemma CoupledClose<T(!new), S(!new)>(g: Problem<T, S>, s1: State<T, S>, s: State<T, S>, owner: map<T, T>,
      owner': map<T, T>, items: map<T, seq<S>>, apart: bool, lo: int, x: T)
    requires Coupled(g, s1, owner, items, apart) && 0 <= lo < |s1.stack| && s1.stack[lo] == x && x in owner
    requires forall i, j :: 0 <= i < j < |s1.stack| ==> s1.stack[i] != s1.stack[j]
    requires forall i :: lo <= i < |s1.stack| ==> Twin(g, s1.stack[i], x)
    requires Popped(s1, s, From(s1.stack, lo), s1.F[x]) && s.stack == s1.stack[..lo]
    requires Passed(owner, owner', From(s1.stack, lo), x)
    ensures Coupled(g, s, owner', items, apart)
  {
    hide Twin;
    hide Within;
    assert x in s1.stack && CoupledAt(g, s1, owner, items, apart, x);
    forall z ensures CoupledAt(g, s, owner', items, apart, z) {
      assert CoupledAt(g, s1, owner, items, apart, z);
      if z in owner {
        StillStacked(s1.stack, lo, z);
        StillStacked(s1.stack, lo, owner'[z]);
      }
    }
    forall z ensures GivenAt(g, owner', items, apart, z) {
      assert GivenAt(g, owner, items, apart, z);
    }
  }

  lemma StillStacked<T(!new)>(stack: seq<T>, lo: int, z: T)
    requires 0 <= lo <= |stack| && forall i, j :: 0 <= i < j < |stack| ==> stack[i] != stack[j]
    ensures z in stack[..lo] <==> z in stack && z !in From(stack, lo)
  {
  }

  /** The members of a component at the top of the stack reach its root and are reached from it. */
  lemma RootTwins<T(!new), S(!new)>(g: Problem<T, S>, s: State<T, S>, lo: int, x: T)
    requires Inv(g, s) && 0 <= lo < |s.stack| && s.stack[lo] == x && s.N[x] == lo + 1
    requires forall i :: 0 <= i < |s.stack| ==> Reach(g, s.stack[i], x)
    ensures forall i :: lo <= i < |s.stack| ==> Twin(g, s.stack[i], x)
  {
    hide Reach;
    hide ClosedExact;
    hide StackSound;
  }

  class Search<T(==, !new), S(==, !new)> {
    const rel: T -> seq<T>
    const given: map<T, Box<S>>
    ghost const g: Problem<T, S>
    ghost const apart: bool
    var N: map<T, int>
    var stack: seq<T>
    var lists: map<T, Box<S>>
    ghost var F: map<T, seq<S>>
    ghost var owner: map<T, T>

    constructor (nodes: seq<T>, rel: T -> seq<T>, given: map<T, Box<S>>, ghost g: Problem<T, S>, ghost apart: bool)
      requires g.nodes == nodes && g.rel == rel
      ensures this.rel == rel && this.given == given && this.g == g && this.apart == apart
      ensures stack == [] && F == map[] && lists == map[] && owner == map[]
      ensures N == map x | x in g.nodes :: 0
    {
      this.rel, this.given, this.g, this.apart := rel, given, g, apart;
      N := map x | x in nodes :: 0;
      stack, lists := [], map[];
      F, owner := map[], map[];
    }

    ghost function Now(): State<T, S>
      reads this
    {
      State(N, stack, F)
    }

    ghost predicate Valid()
      reads this
    {
      WellFormed(g) && g.rel == rel && Inv(g, Now())
    }

    ghost function Items(): map<T, seq<S>>
      reads given.Values
    {
      map x | x in given :: given[x].items
    }

    /** The lists of the nodes are those that F' handed out, and hold what they should. */
    ghost predicate Linked()
      reads this, given.Values
    {
      && Coupled(g, Now(), owner, Items(), apart) && Handed(lists, owner, given)
      && (apart ==> Separate(given))
    }

    /** N[stack[-1]] = MAXINT; F[stack[-1]] = F[x]; element = stack.pop() */
    method Pop(x: T) returns (element: T)
      requires stack != [] && x in F && x in lists && x in owner
      modifies this
      ensures stack == old(stack)[..|old(stack)| - 1] && element == old(stack)[|old(stack)| - 1]
      ensures N == old(N)[element := MAXINT] && F == old(F)[element := old(F)[x]]
      ensures lists == old(lists)[element := old(lists)[x]] && owner == old(owner)[element := old(owner)[x]]
    {
      element := stack[|stack| - 1];
      N := N[element := MAXINT];
      lists := lists[element := lists[x]];
      F, owner := F[element := F[x]], owner[element := owner[x]];
      stack := stack[..|stack| - 1];
    }

    /** Pops the component rooted at x, marking every member closed with x's list. */
    method Close(x: T, ghost lo: int)
      requires 0 <= lo < |stack| && stack[lo] == x
      requires forall i :: lo < i < |stack| ==> stack[i] != x
      requires forall i :: lo <= i < |stack| ==> stack[i] in N && stack[i] in F
      requires lists.Keys == owner.Keys == F.Keys
      modifies this
      ensures stack == old(stack)[..lo]
      ensures Popped(old(Now()), Now(), From(old(stack), lo), old(F)[x])
      ensures Passed(old(lists), lists, From(old(stack), lo), old(lists)[x])
      ensures Passed(old(owner), owner, From(old(stack), lo), old(owner)[x])
    {
      hide ClosedDown;
      ghost var s0, n := Now(), |stack| - 1;
      ghost var lists0, owner0 := lists, owner;
      var element := Pop(x);
      ClosedFirst(s0, Now(), lists0, lists, owner0, owner, lo, x);
      while element != x
        invariant ClosedDown(s0, Now(), lists0, lists, owner0, owner, lo, n, x, element)
        decreases n
      {
        ghost var s1, lists1, owner1 := Now(), lists, owner;
        ClosedFacts(s0, s1, lists0, lists, owner0, owner, lo, n, x, element);
        element := Pop(x);
        ClosedStep(s0, s1, Now(), lists0, lists1, lists, owner0, owner1, owner, lo, n, x);
        n := n - 1;
      }
      ClosedEnd(s0, Now(), lists0, lists, owner0, owner, lo, n, x);
    }

    method Traverse(x: T)
      requires Valid() && Linked() && x in N && N[x] == 0
      requires forall i :: 0 <= i < |stack| ==> Reach(g, stack[i], x)
      modifies this, given.Values
      ensures Valid() && Linked() && Preserves(old(Now()), Now(), {})
      ensures Traversed(g, Now(), |old(stack)|, x)
      ensures x in N && N[x] != 0
      decreases White(N), 0
    {
      hide Coupled;
      hide Pushed;
      hide Handed;
      hide Inv;
      hide Reach;
      hide Exploring;
      hide Traversed;
      hide Preserves;
      hide White;
      hide Separate;
      ghost var lo, s0 := |stack|, Now();
      PushedExplores(g, s0, x);
      NumbersOf(g, s0);
      CoupledPush(g, s0, owner, Items(), apart, x);
      CoupledFacts(g, s0, owner, Items(), apart);
      PushedIs(g, s0, x);
      HandedMore(lists, owner, given, x);
      stack := stack + [x];
      var d := |stack|;
      N := N[x := d];
      lists := lists[x := given[x]];
      F, owner := F[x := g.base(x)], owner[x := x];

      Explore(x, lo, s0);
      Leave(x, d, lo, s0);
    }

    /** The loop of traverse() over the nodes related to x. */
    method Explore(x: T, ghost lo: int, ghost s0: State<T, S>)
      requires WellFormed(g) && g.rel == rel && Linked() && Exploring(g, Now(), lo, x, 0)
      requires Preserves(s0, Now(), {}) && x in s0.N && s0.N[x] == 0
      modifies this, given.Values
      ensures Linked() && Exploring(g, Now(), lo, x, |g.rel(x)|) && Preserves(s0, Now(), {})
      decreases White(N), 2
    {
      hide Exploring;
      hide Preserves;
      hide Coupled;
      ghost var W := White(N);
      var related := rel(x);
      for j := 0 to |related|
        invariant Linked() && Exploring(g, Now(), lo, x, j)
        invariant Preserves(s0, Now(), {})
        invariant White(N) <= W
      {
        ghost var s1 := Now();
        FollowEdge(x, j, related[j], lo);
        PreservesMore(s0, s1, Now(), x);
      }
    }

    /** The end of traverse(): a component root closes its component. */
    method Leave(x: T, d: int, ghost lo: int, ghost s0: State<T, S>)
      requires Linked() && Exploring(g, Now(), lo, x, |g.rel(x)|) && d == lo + 1
      requires Inv(g, s0) && lo == |s0.stack| && Preserves(s0, Now(), {})
      modifies this
      ensures Linked() && Inv(g, Now()) && Preserves(s0, Now(), {}) && Traversed(g, Now(), lo, x)
      ensures x in N && N[x] != 0
    {
      hide Inv;
      hide Exploring;
      hide Traversed;
      hide Preserves;
      hide Coupled;
      hide Twin;
      hide Handed;
      hide Passed;
      hide Popped;
      hide From;
      hide Reach;
      hide Separate;
      ghost var s1, owner1, lists1 := Now(), owner, lists;
      ExploredFacts(g, s1, lo, x, |g.rel(x)|);
      CoupledFacts(g, s1, owner, Items(), apart);
      HandedKeys(lists, owner, given);
      if N[x] == d {
        RootTwins(g, s1, lo, x);
        CoupledOwner(g, s1, owner, Items(), apart, x);
        NumbersOf(g, s1);
        Close(x, lo);
        assert RootPopped(g, s1, Now(), lo, x);
        Closing(g, s1, Now(), lo, x);
        ClosingPreserves(g, s0, s1, Now(), lo, x);
        CoupledClose(g, s1, Now(), owner1, owner, Items(), apart, lo, x);
        HandedPassed(lists1, owner1, given, lists, owner, From(s1.stack, lo), x);
        ClosedNumber(g, Now(), x);
      } else {
        Returning(g, Now(), lo, x);
      }
    }

    /** F[x] takes over what F[y] has beyond it. */
    method MergeLists(x: T, y: T)
      requires x in lists && x in given && lists[x] == given[x] && y in lists
      requires y in owner && owner[y] in given && lists[y] == given[owner[y]]
      modifies given.Values
      ensures Items().Keys == old(Items()).Keys
      ensures forall z :: z in old(Items()) ==> Within(old(Items())[z], Items()[z])
      ensures Items()[x] == Merge(old(Items())[x], old(Items())[owner[y]])
      ensures Separate(given) ==> Items() == old(Items())[x := Merge(old(Items())[x], old(Items())[owner[y]])]
    {
      ghost var items := Items();
      MergeHas(items[x], items[owner[y]]);
      AppendNew(lists[x], lists[y]);
    }

    /** N[x] = min(N[x], N[y]) and the merging of y's list. */
    method MergeEdge(x: T, y: T)
      requires x in N && y in N && x in F && y in F && x in stack && Linked()
      modifies this`N, this`F, given.Values
      ensures EdgeMerged(old(Now()), Now(), x, y) && Linked()
    {
      hide Coupled;
      hide Merge;
      hide Handed;
      hide Within;
      hide Separate;
      hide EdgeMerged;
      hide Items;
      ghost var s, items := Now(), Items();
      CoupledFacts(g, s, owner, items, apart);
      HandedKeys(lists, owner, given);
      CoupledOwner(g, s, owner, items, apart, x);
      CoupledOwner(g, s, owner, items, apart, y);
      HandedIs(lists, owner, given, x);
      HandedIs(lists, owner, given, y);
      var numbers := N[x := if N[y] < N[x] then N[y] else N[x]];
      ghost var merged := F[x := Merge(F[x], F[y])];
      ghost var t := State(numbers, stack, merged);
      MergedIs(s, t, x, y);
      MergeLists(x, y);
      CoupledMerge(g, s, t, owner, items, Items(), apart, x, y);
      N, F := numbers, merged;
    }

    /** The loop body of traverse(): visit y if it is new, then merge its number and list into x's. */
    method FollowEdge(x: T, ghost j: int, y: T, ghost lo: int)
      requires WellFormed(g) && g.rel == rel && Linked() && Exploring(g, Now(), lo, x, j)
      requires 0 <= j < |g.rel(x)| && g.rel(x)[j] == y
      modifies this, given.Values
      ensures Linked() && Exploring(g, Now(), lo, x, j + 1)
      ensures Preserves(old(Now()), Now(), {x})
      ensures White(N) <= White(old(N))
      decreases White(N), 1
    {
      hide Coupled;
      ghost var s1 := Now();
      ExploredFacts(g, s1, lo, x, j);
      hide Reach;
      hide Inv;
      hide Exploring;
      hide Traversed;
      if N[y] == 0 {
        forall i | 0 <= i < |stack| ensures Reach(g, stack[i], y) {
          ReachEdge(g, x, y);
          ReachTrans(g, stack[i], x, y);
        }
        Traverse(y);
      }
      ghost var s2 := Now();
      hide Preserves;
      EdgeReady(g, s1, s2, lo, x, j);
      assert x in stack;
      MergeEdge(x, y);
      EdgePreserves(g, s1, s2, Now(), lo, x, j);
      EdgeExplored(g, s1, s2, Now(), lo, x, j);
    }
  }

  /** Each node has the list that was handed out for its owner. */
  ghost predicate Handed<T, S>(lists: map<T, Box<S>>, owner: map<T, T>, given: map<T, Box<S>>) {
    lists.Keys == owner.Keys && forall z :: z in lists ==> HandedAt(lists[z], owner[z], given)
  }

  ghost predicate HandedAt<T, S>(list: Box<S>, r: T, given: map<T, Box<S>>) {
    r in given && list == given[r]
  }

  lemma MergedIs<T(!new), S(!new)>(s: State<T, S>, t: State<T, S>, x: T, y: T)
    requires x in s.N && y in s.N && x in s.F && y in s.F
    requires t == State(s.N[x := if s.N[y] < s.N[x] then s.N[y] else s.N[x]], s.stack, s.F[x := Merge(s.F[x], s.F[y])])
    ensures EdgeMerged(s, t, x, y)
  {
    MergeHas(s.F[x], s.F[y]);
  }

  lemma HandedKeys<T, S>(lists: map<T, Box<S>>, owner: map<T, T>, given: map<T, Box<S>>)
    requires Handed(lists, owner, given)
    ensures lists.Keys == owner.Keys
  {
  }

  lemma HandedPassed<T(!new), S>(lists: map<T, Box<S>>, owner: map<T, T>, given: map<T, Box<S>>, lists': map<T, Box<S>>,
      owner': map<T, T>, gone: set<T>, x: T)
    requires Handed(lists, owner, given) && x in lists
    requires Passed(lists, lists', gone, lists[x]) && Passed(owner, owner', gone, owner[x])
    ensures Handed(lists', owner', given)
  {
    assert HandedAt(lists[x], owner[x], given);
  }

  lemma HandedIs<T, S>(lists: map<T, Box<S>>, owner: map<T, T>, given: map<T, Box<S>>, x: T)
    requires Handed(lists, owner, given) && x in lists
    ensures x in owner && owner[x] in given && lists[x] == given[owner[x]]
  {
    assert HandedAt(lists[x], owner[x], given);
  }

  lemma HandedMore<T, S>(lists: map<T, Box<S>>, owner: map<T, T>, given: map<T, Box<S>>, x: T)
    requires Handed(lists, owner, given) && x in given
    ensures Handed(lists[x := given[x]], owner[x := x], given)
  {
  }

  /** Every node was handed a list of its own. */
  ghost predicate Separate<T(!new), S>(given: map<T, Box<S>>) {
    forall x, y :: x in given && y in given && x != y ==> given[x] != given[y]
  }

  /** The members of gone have been passed value v; no other entry changed. */
  ghost predicate Passed<T(!new), V>(m0: map<T, V>, m: map<T, V>, gone: set<T>, v: V) {
    m.Keys == m0.Keys && forall z :: z in m ==> m[z] == if z in gone then v else m0[z]
  }

  /** The stack has been popped down to n, and what was popped closed with x's list. */
  ghost predicate ClosedDown<T(!new), S(!new)>(s0: State<T, S>, s: State<T, S>, lists0: map<T, Box<S>>,
      lists: map<T, Box<S>>, owner0: map<T, T>, owner: map<T, T>, lo: int, n: int, x: T, element: T)
  {
    && 0 <= lo <= n < |s0.stack| && s0.stack[lo] == x && s.stack == s0.stack[..n] && element == s0.stack[n]
    && (forall i :: lo < i < |s0.stack| ==> s0.stack[i] != x)
    && (forall i :: lo <= i < |s0.stack| ==> s0.stack[i] in s0.N && s0.stack[i] in s0.F)
    && x in s0.F && x in s.F && s.F[x] == s0.F[x] && lists0.Keys == owner0.Keys == s0.F.Keys
    && Popped(s0, s, From(s0.stack, n), s0.F[x])
    && Passed(lists0, lists, From(s0.stack, n), lists0[x]) && lists[x] == lists0[x]
    && Passed(owner0, owner, From(s0.stack, n), owner0[x]) && owner[x] == owner0[x]
  }

  lemma ClosedFirst<T(!new), S(!new)>(s0: State<T, S>, s: State<T, S>, lists0: map<T, Box<S>>,
      lists: map<T, Box<S>>, owner0: map<T, T>, owner: map<T, T>, lo: int, x: T)
    requires 0 <= lo < |s0.stack| && s0.stack[lo] == x
    requires forall i :: lo < i < |s0.stack| ==> s0.stack[i] != x
    requires forall i :: lo <= i < |s0.stack| ==> s0.stack[i] in s0.N && s0.stack[i] in s0.F
    requires lists0.Keys == owner0.Keys == s0.F.Keys && s.stack == s0.stack[..|s0.stack| - 1]
    requires var last := s0.stack[|s0.stack| - 1];
      && s.N == s0.N[last := MAXINT] && s.F == s0.F[last := s0.F[x]]
      && lists == lists0[last := lists0[x]] && owner == owner0[last := owner0[x]]
    ensures var n := |s0.stack| - 1; ClosedDown(s0, s, lists0, lists, owner0, owner, lo, n, x, s0.stack[n])
  {
    PopFirst(s0, s, s0.F[x]);
    PassFirst(s0.stack, lists0, lists, lists0[x]);
    PassFirst(s0.stack, owner0, owner, owner0[x]);
    hide Popped;
    hide Passed;
    hide From;
  }

  lemma ClosedFacts<T(!new), S(!new)>(s0: State<T, S>, s: State<T, S>, lists0: map<T, Box<S>>,
      lists: map<T, Box<S>>, owner0: map<T, T>, owner: map<T, T>, lo: int, n: int, x: T, element: T)
    requires ClosedDown(s0, s, lists0, lists, owner0, owner, lo, n, x, element) && element != x
    ensures 0 <= lo < n < |s0.stack| && element == s0.stack[n]
    ensures s.stack != [] && x in s.F && x in lists && x in owner
  {
  }

  lemma ClosedStep<T(!new), S(!new)>(s0: State<T, S>, s1: State<T, S>, s: State<T, S>, lists0: map<T, Box<S>>,
      lists1: map<T, Box<S>>, lists: map<T, Box<S>>, owner0: map<T, T>, owner1: map<T, T>, owner: map<T, T>,
      lo: int, n: int, x: T)
    requires 0 <= lo < n < |s0.stack|
    requires ClosedDown(s0, s1, lists0, lists1, owner0, owner1, lo, n, x, s0.stack[n])
    requires x in lists1 && x in owner1 && s1.stack != [] && s.stack == s1.stack[..|s1.stack| - 1]
    requires var last := s1.stack[|s1.stack| - 1];
      && s.N == s1.N[last := MAXINT] && s.F == s1.F[last := s1.F[x]]
      && lists == lists1[last := lists1[x]] && owner == owner1[last := owner1[x]]
    ensures ClosedDown(s0, s, lists0, lists, owner0, owner, lo, n - 1, x, s0.stack[n - 1])
    ensures s1.stack[|s1.stack| - 1] == s0.stack[n - 1]
  {
    hide Popped;
    hide Passed;
    hide From;
    assert s1.stack[|s1.stack| - 1] == s0.stack[n - 1] && s.stack == s0.stack[..n - 1];
    PopStep(n - 1, s0, s1, s, s0.F[x]);
    PassStep(n - 1, s0.stack, lists0, lists1, lists, lists0[x]);
    PassStep(n - 1, s0.stack, owner0, owner1, owner, owner0[x]);
  }

  lemma ClosedEnd<T(!new), S(!new)>(s0: State<T, S>, s: State<T, S>, lists0: map<T, Box<S>>,
      lists: map<T, Box<S>>, owner0: map<T, T>, owner: map<T, T>, lo: int, n: int, x: T)
    requires ClosedDown(s0, s, lists0, lists, owner0, owner, lo, n, x, x)
    ensures s.stack == s0.stack[..lo] && x in s0.F && x in lists0 && x in owner0
    ensures Popped(s0, s, From(s0.stack, lo), s0.F[x])
    ensures Passed(lists0, lists, From(s0.stack, lo), lists0[x])
    ensures Passed(owner0, owner, From(s0.stack, lo), owner0[x])
  {
    hide Popped;
    hide Passed;
    hide From;
    assert n == lo;
  }

  lemma PassFirst<T(!new), V>(stack: seq<T>, m0: map<T, V>, m: map<T, V>, v: V)
    requires stack != [] && stack[|stack| - 1] in m0 && m == m0[stack[|stack| - 1] := v]
    ensures Passed(m0, m, From(stack, |stack| - 1), v)
  {
    PassStep(|stack| - 1, stack, m0, m0, m, v);
  }

  lemma NumbersOf<T(!new), S(!new)>(g: Problem<T, S>, s: State<T, S>)
    requires Inv(g, s)
    ensures Numbering(g, s) && forall i, j :: 0 <= i < j < |s.stack| ==> s.stack[i] != s.stack[j]
  {
  }

  lemma ClosedNumber<T(!new), S(!new)>(g: Problem<T, S>, s: State<T, S>, x: T)
    requires s.Closed(x)
    ensures x in s.N && s.N[x] != 0
  {
  }

  lemma PassStep<T(!new), V>(n: int, stack: seq<T>, m0: map<T, V>, m1: map<T, V>, m: map<T, V>, v: V)
    requires 0 <= n < |stack| && stack[n] in m0 && m == m1[stack[n] := v]
    requires Passed(m0, m1, From(stack, n + 1), v)
    ensures Passed(m0, m, From(stack, n), v)
  {
    assert From(stack, n) == From(stack, n + 1) + {stack[n]};
  }

  lemma CoupledFacts<T(!new), S(!new)>(g: Problem<T, S>, s: State<T, S>, owner: map<T, T>, items: map<T, seq<S>>,
      apart: bool)
    requires Coupled(g, s, owner, items, apart)
    ensures items.Keys == (set x | x in g.nodes) && owner.Keys == s.F.Keys <= items.Keys
  {
  }

  lemma CoupledOwner<T(!new), S(!new)>(g: Problem<T, S>, s: State<T, S>, owner: map<T, T>, items: map<T, seq<S>>,
      apart: bool, z: T)
    requires Coupled(g, s, owner, items, apart) && z in owner
    ensures owner[z] in owner && owner[z] in items && (z in s.stack ==> owner[z] == z)
  {
    assert CoupledAt(g, s, owner, items, apart, z);
  }

  lemma PushedIs<T, S>(g: Problem<T, S>, s0: State<T, S>, x: T)
    ensures Pushed(g, s0, x) == State(s0.N[x := |s0.stack| + 1], s0.stack + [x], s0.F[x := g.base(x)])
  {
  }

  // ----- digraph() itself

  /** F gives every node of X exactly the union of F' over what it reaches. */
  ghost predicate Solves<T(!new), S(!new)>(g: Problem<T, S>, F: map<T, seq<S>>) {
    F.Keys == (set x | x in g.nodes) && forall x :: x in F ==> Exact(g, x, F[x])
  }

  lemma StackEmptied<T(!new), S(!new)>(g: Problem<T, S>, s: State<T, S>, x: T)
    requires Traversed(g, s, 0, x)
    ensures s.stack == [] && s.N.Keys == (set z | z in g.nodes)
  {
  }

  lemma AllClosed<T(!new), S(!new)>(g: Problem<T, S>, s: State<T, S>)
    requires Inv(g, s) && s.stack == [] && forall i :: 0 <= i < |g.nodes| ==> s.Visited(g.nodes[i])
    ensures Solves(g, s.F)
  {
    hide Exact;
    forall x | x in g.nodes ensures s.Closed(x) {
      var i :| 0 <= i < |g.nodes| && g.nodes[i] == x;
      assert s.Visited(g.nodes[i]);
    }
  }

  lemma InitialInv<T(!new), S(!new)>(g: Problem<T, S>, s: State<T, S>)
    requires WellFormed(g) && s == State((map x | x in g.nodes :: 0), [], map[])
    ensures Inv(g, s) && s.N.Keys == (set z | z in g.nodes)
  {
  }

  /**
   * The lists after the search, each handed out by F' for some node of the same
   * component. They hold at least the union of F' over what their node reaches,
   * whatever F' hands out; exactly that, if it hands each node a list of its own.
   */
  method Digraph<T(==, !new), S(==, !new)>(nodes: seq<T>, rel: T -> seq<T>, given: map<T, Box<S>>,
      ghost g: Problem<T, S>)
    returns (lists: map<T, Box<S>>, ghost F: map<T, seq<S>>, ghost owner: map<T, T>)
    requires g.nodes == nodes && g.rel == rel
    requires WellFormed(g) && given.Keys == (set x | x in g.nodes)
    requires forall x :: x in given ==> given[x].items == g.base(x)
    modifies given.Values
    ensures Solves(g, F) && lists.Keys == F.Keys
    ensures Handed(lists, owner, given) && forall x :: OwnedByTwin(g, owner, x)
    ensures forall x :: x in lists ==> Within(F[x], lists[x].items)
    ensures Separate(given) ==> forall x :: x in lists ==> lists[x].items == F[x]
  {
    hide Inv;
    hide Traversed;
    hide Solves;
    hide WellFormed;
    hide Twin;
    hide Handed;
    hide Separate;
    hide Reach;
    hide Coupled;
    hide Preserves;
    hide Within;
    hide OwnedByTwin;
    var search := new Search(nodes, rel, given, g, Separate(given));
    InitialInv(g, search.Now());
    InitialCoupled(g, search.Now(), search.Items(), given, Separate(given));
    for k := 0 to |nodes|
      invariant fresh(search) && search.g == g && search.given == given && search.apart == Separate(given)
      invariant search.Valid() && search.Linked() && search.stack == []
      invariant search.N.Keys == (set z | z in g.nodes)
      invariant forall i :: 0 <= i < k ==> search.Now().Visited(g.nodes[i])
    {
      if search.N[nodes[k]] == 0 {
        ghost var before := search.Now();
        search.Traverse(nodes[k]);
        StackEmptied(g, search.Now(), g.nodes[k]);
        StayVisited(before, search.Now(), g.nodes, k);
      }
    }
    lists, F, owner := search.lists, search.F, search.owner;
    AllClosed(g, search.Now());
    CoupledResult(g, search.Now(), owner, search.Items(), search.apart, lists, given);
  }

  lemma StayVisited<T(!new), S(!new)>(s0: State<T, S>, s: State<T, S>, nodes: seq<T>, k: int)
    requires Preserves(s0, s, {}) && k <= |nodes| && forall i :: 0 <= i < k ==> s0.Visited(nodes[i])
    ensures forall i :: 0 <= i < k ==> s.Visited(nodes[i])
  {
  }

  /** The owner of x's list is in x's component. */
  ghost predicate OwnedByTwin<T(!new), S(!new)>(g: Problem<T, S>, owner: map<T, T>, x: T) {
    x in owner ==> owner[x] in owner && Twin(g, x, owner[x])
  }

  lemma InitialCoupled<T(!new), S(!new)>(g: Problem<T, S>, s: State<T, S>, items: map<T, seq<S>>, given: map<T, Box<S>>,
      apart: bool)
    requires s.F == map[] && items.Keys == (set x | x in g.nodes) && forall x :: x in items ==> items[x] == g.base(x)
    ensures Coupled(g, s, map[], items, apart) && Handed<T, S>(map[], map[], given)
  {
  }

  lemma CoupledResult<T(!new), S(!new)>(g: Problem<T, S>, s: State<T, S>, owner: map<T, T>, items: map<T, seq<S>>,
      apart: bool, lists: map<T, Box<S>>, given: map<T, Box<S>>)
    requires Coupled(g, s, owner, items, apart) && Handed(lists, owner, given)
    requires items == map x | x in given :: given[x].items
    ensures lists.Keys == s.F.Keys && forall x :: OwnedByTwin(g, owner, x)
    ensures forall x :: x in lists ==> Within(s.F[x], lists[x].items)
    ensures apart ==> forall x :: x in lists ==> lists[x].items == s.F[x]
  {
    hide Twin;
    hide Within;
    forall x ensures OwnedByTwin(g, owner, x) {
      assert CoupledAt(g, s, owner, items, apart, x);
    }
    forall x | x in lists ensures Within(s.F[x], lists[x].items) && (apart ==> lists[x].items == s.F[x]) {
      assert CoupledAt(g, s, owner, items, apart, x) && HandedAt(lists[x], owner[x], given);
    }
  }

  /** The result solves F(x) = F'(x) U U{F(y) | x R y}, cycles included. */
  lemma SolutionEquation<T(!new), S(!new)>(g: Problem<T, S>, F: map<T, seq<S>>, x: T, a: S)
    requires WellFormed(g) && Solves(g, F) && x in g.nodes
    ensures a in F[x] <==> a in g.base(x) || exists y :: y in g.rel(x) && a in F[y]
  {
    assert Exact(g, x, F[x]);
    if a in F[x] {
      var z :| Reach(g, x, z) && a in g.base(z);
      ReachesUnfold(g.SuccFn(), x, z);
      if x != z {
        var y :| y in g.SuccFn()(x) && Reaches(g.SuccFn(), y, z);
        assert Reach(g, y, z) && Exact(g, y, F[y]);
      }
    }
    if a in g.base(x) {
      InUnionBase(g, x, a);
    }
    if y :| y in g.rel(x) && a in F[y] {
      assert Exact(g, y, F[y]);
      ReachEdge(g, x, y);
      InUnionVia(g, x, y, a);
    }
  }

  /** And it is the least one: it lies below every G that contains F' and absorbs related nodes. */
  lemma SolutionLeast<T(!new), S(!new)>(g: Problem<T, S>, F: map<T, seq<S>>, G: map<T, seq<S>>, x: T)
    requires WellFormed(g) && Solves(g, F) && x in g.nodes && forall z :: z in g.nodes ==> z in G
    requires forall z :: z in g.nodes ==> Within(g.base(z), G[z])
    requires forall z, y :: z in g.nodes && y in g.rel(z) ==> Within(G[y], G[z])
    ensures Within(F[x], G[x])
  {
    forall a | a in F[x] ensures a in G[x] {
      assert Exact(g, x, F[x]);
      var z :| Reach(g, x, z) && a in g.base(z);
      var p :| Connects(g.SuccFn(), p, x, z);
      WalkWithin(g, G, p, a);
    }
  }

  lemma {:induction false} WalkWithin<T(!new), S(!new)>(g: Problem<T, S>, G: map<T, seq<S>>, p: seq<T>, a: S)
    requires WellFormed(g) && (forall z :: z in g.nodes ==> z in G)
    requires forall z :: z in g.nodes ==> Within(g.base(z), G[z])
    requires forall z, y :: z in g.nodes && y in g.rel(z) ==> Within(G[y], G[z])
    requires IsWalk(g.SuccFn(), p) && p[0] in g.nodes && a in g.base(p[|p| - 1])
    ensures a in G[p[0]]
  {
    if |p| > 1 {
      assert p[1] in g.SuccFn()(p[0]);
      WalkWithin(g, G, p[1..], a);
      assert Within(G[p[1]], G[p[0]]);
    }
  }
}
