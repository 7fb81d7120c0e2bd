/**
 * The weights of the tasks of a run queue and the detection of circular
 * dependencies: a wave-by-wave sweep from the tasks nothing depends on.
 */
module TaskWeights {
  import opened Finite
  import opened Paths
  import opened TaskPruning

  // ----- counting the walks to tasks nothing depends on

  /** The walks of at most n steps along reverse dependencies from t to a task without any. */
  ghost function EndWalks(rev: seq<set<int>>, t: int, n: nat): set<seq<int>>
    decreases n, 0
  {
    if !(0 <= t < |rev|) then {}
    else if rev[t] == {} then {[t]}
    else if n == 0 then {}
    else Prefixed(rev, t, rev[t], n - 1)
  }

  /** The same, led by t and continued from a member of s. */
  ghost function Prefixed(rev: seq<set<int>>, t: int, s: set<int>, n: nat): set<seq<int>>
    decreases n, 1
  {
    set r, w | r in s && w in EndWalks(rev, r, n) :: [t] + w
  }

  /** A walk that ends where no task depends on the last one. */
  ghost predicate IsEndWalk(rev: seq<set<int>>, t: int, w: seq<int>) {
    && IsWalk(Adj(rev), w) && w[0] == t
    && 0 <= w[|w| - 1] < |rev| && rev[w[|w| - 1]] == {}
  }

  lemma NoStep(rev: seq<set<int>>, w: seq<int>)
    requires |w| > 1 && 0 <= w[0] < |rev| && rev[w[0]] == {}
    ensures !IsWalk(Adj(rev), w)
  {
    assert w[0 + 1] !in Adj(rev)(w[0]);
  }

  lemma {:induction false} EndWalksAre(rev: seq<set<int>>, t: int, n: nat, w: seq<int>)
    requires 0 <= t < |rev| && InRange(rev)
    ensures w in EndWalks(rev, t, n) <==> IsEndWalk(rev, t, w) && |w| <= n + 1
    decreases n
  {
    if rev[t] == {} {
      if |w| > 1 && w[0] == t {
        NoStep(rev, w);
      }
      if |w| == 1 {
        assert w == [w[0]];
      }
    } else if n == 0 {
    } else {
      forall r, v | r in rev[t] && v in EndWalks(rev, r, n - 1) && w == [t] + v
        ensures IsEndWalk(rev, t, w) && |w| <= n + 1
      {
        EndWalksAre(rev, r, n - 1, v);
        forall i | 0 <= i < |w| - 1 ensures w[i + 1] in Adj(rev)(w[i]) {
          if i > 0 { assert v[i - 1 + 1] in Adj(rev)(v[i - 1]); }
        }
      }
      if IsEndWalk(rev, t, w) && |w| <= n + 1 {
        assert w[1] in Adj(rev)(w[0]);
        var v := w[1..];
        forall i | 0 <= i < |v| - 1 ensures v[i + 1] in Adj(rev)(v[i]) {
          assert w[i + 1 + 1] in Adj(rev)(w[i + 1]);
        }
        EndWalksAre(rev, w[1], n - 1, v);
        assert w == [t] + v;
      }
    }
  }

  ghost function Counts(rev: seq<set<int>>, n: nat): int -> int {
    t => |EndWalks(rev, t, n)|
  }

  lemma {:induction false} PrefixedOne(rev: seq<set<int>>, t: int, r: int, n: nat)
    ensures |Prefixed(rev, t, {r}, n)| == |EndWalks(rev, r, n)|
  {
    LedCard(t, EndWalks(rev, r, n));
    assert Prefixed(rev, t, {r}, n) == Led(t, EndWalks(rev, r, n));
  }

  ghost function Led(t: int, ws: set<seq<int>>): set<seq<int>> {
    set w | w in ws :: [t] + w
  }

  lemma {:induction false} LedCard(t: int, ws: set<seq<int>>)
    ensures |Led(t, ws)| == |ws|
  {
    if ws != {} {
      var w :| w in ws;
      LedCard(t, ws - {w});
      assert Led(t, ws) == Led(t, ws - {w}) + {[t] + w};
      forall v | v in ws && v != w ensures [t] + v != [t] + w {
        assert ([t] + v)[1..] == v && ([t] + w)[1..] == w;
      }
    }
  }

  lemma WalkStart(rev: seq<set<int>>, r: int, n: nat, w: seq<int>)
    requires w in EndWalks(rev, r, n)
    ensures |w| > 0 && w[0] == r
  {
  }

  lemma PrefixedSecond(rev: seq<set<int>>, t: int, s: set<int>, n: nat, u: seq<int>)
    requires u in Prefixed(rev, t, s, n)
    ensures |u| > 1 && u[1] in s
  {
    forall r, w | r in s && w in EndWalks(rev, r, n) && u == [t] + w ensures |u| > 1 && u[1] in s {
      WalkStart(rev, r, n, w);
    }
  }

  lemma PrefixedSplit(rev: seq<set<int>>, t: int, rest: set<int>, x: int, n: nat)
    requires x !in rest
    ensures Prefixed(rev, t, rest + {x}, n) == Prefixed(rev, t, rest, n) + Prefixed(rev, t, {x}, n)
    ensures Prefixed(rev, t, rest, n) !! Prefixed(rev, t, {x}, n)
  {
    hide EndWalks;
    forall u | u in Prefixed(rev, t, rest, n) ensures u !in Prefixed(rev, t, {x}, n) {
      PrefixedSecond(rev, t, rest, n, u);
      if u in Prefixed(rev, t, {x}, n) {
        PrefixedSecond(rev, t, {x}, n, u);
      }
    }
  }

  /** Walks continued from different tasks are different, so their numbers add up. */
  lemma {:induction false} PrefixedCard(rev: seq<set<int>>, t: int, s: set<int>, n: nat)
    ensures |Prefixed(rev, t, s, n)| == Sum(s, Counts(rev, n))
    decreases s
  {
    hide EndWalks;
    if s == {} {
      assert Prefixed(rev, t, s, n) == {};
    } else {
      hide Prefixed;
      var x := AnyOf(s);
      var rest := s - {x};
      PrefixedCard(rev, t, rest, n);
      PrefixedOne(rev, t, x, n);
      SumAdd(rest, x, Counts(rev, n));
      assert rest + {x} == s;
      PrefixedSplit(rev, t, rest, x, n);
    }
  }

  // ----- circular dependencies

  /** Some task needed by c, directly or not, needs c. */
  ghost predicate OnCycle(rev: seq<set<int>>, c: int) {
    exists r :: r in Adj(rev)(c) && Reaches(Adj(rev), r, c)
  }

  /** From t, reverse dependencies lead to a cycle. */
  ghost predicate ReachesCycle(rev: seq<set<int>>, t: int) {
    exists c :: Reaches(Adj(rev), t, c) && OnCycle(rev, c)
  }

  ghost predicate Below(s: set<int>, done: set<int>, rank: map<int, int>, k: int) {
    forall r :: r in s ==> r in done && r in rank && rank[r] < k
  }

  /** A set closed under reverse dependencies, along which ranks fall. */
  ghost predicate Ranked(rev: seq<set<int>>, done: set<int>, rank: map<int, int>) {
    forall t :: t in done ==> t in rank && 0 <= rank[t] && 0 <= t < |rev| && Below(rev[t], done, rank, rank[t])
  }

  lemma RankFalls(rev: seq<set<int>>, done: set<int>, rank: map<int, int>, t: int, c: int)
    requires Ranked(rev, done, rank) && t in done && Reaches(Adj(rev), t, c)
    ensures c in done && rank[c] <= rank[t]
  {
    var low := iset x | x in done && x in rank && rank[x] <= rank[t];
    forall u, v | u in low && v in Adj(rev)(u) ensures v in low {
      assert Below(rev[u], done, rank, rank[u]);
    }
    ClosedUnderReaches(Adj(rev), low, t, c);
  }

  /** It meets no cycle. */
  lemma RankedNoCycle(rev: seq<set<int>>, done: set<int>, rank: map<int, int>, t: int)
    requires Ranked(rev, done, rank) && t in done
    ensures !ReachesCycle(rev, t)
  {
    forall c, r | Reaches(Adj(rev), t, c) && r in Adj(rev)(c) ensures !Reaches(Adj(rev), r, c) {
      RankFalls(rev, done, rank, t, c);
      assert Below(rev[c], done, rank, rank[c]);
      if Reaches(Adj(rev), r, c) {
        RankFalls(rev, done, rank, r, c);
      }
    }
  }

  /** Every task outside done has a reverse dependency outside done. */
  ghost predicate Stuck(rev: seq<set<int>>, done: set<int>) {
    forall u :: 0 <= u < |rev| && u !in done ==> rev[u] - done != {}
  }

  /** Where every task has a reverse dependency outside done, walking on repeats a task in the end. */
  lemma StuckReachesCycle(rev: seq<set<int>>, done: set<int>, t: int)
    requires InRange(rev) && 0 <= t < |rev| && t !in done
    requires Stuck(rev, done)
    ensures ReachesCycle(rev, t)
  {
    var w := LongWalk(rev, done, t, |rev|);
    Repeats(w, |rev|);
    hide Adj;
    hide IsWalk;
    hide Reaches;
    hide ReachesCycle;
    var i, j :| 0 <= i < j < |w| && w[i] == w[j];
    WalkReaches(Adj(rev), w, 0, i);
    WalkReaches(Adj(rev), w, i + 1, j);
    CycleFound(rev, w, i, j);
  }

  lemma CycleFound(rev: seq<set<int>>, w: seq<int>, i: int, j: int)
    requires IsWalk(Adj(rev), w) && 0 <= i < j < |w| && w[i] == w[j]
    requires Reaches(Adj(rev), w[0], w[i]) && Reaches(Adj(rev), w[i + 1], w[j])
    ensures ReachesCycle(rev, w[0])
  {
    var r, c := w[i + 1], w[i];
    assert r in Adj(rev)(c) && Reaches(Adj(rev), r, c);
    hide Reaches;
    hide Adj;
    assert OnCycle(rev, c);
  }

  lemma Repeats(w: seq<int>, n: nat)
    requires |w| > n && forall x :: x in w ==> 0 <= x < n
    ensures exists i, j :: 0 <= i < j < |w| && w[i] == w[j]
  {
    if forall i, j :: 0 <= i < j < |w| ==> w[i] != w[j] {
      DistinctCard(w);
      SubsetCard((set x | x in w), Range(n));
    }
  }

  lemma LongWalk(rev: seq<set<int>>, done: set<int>, t: int, n: nat) returns (w: seq<int>)
    requires InRange(rev) && 0 <= t < |rev| && t !in done
    requires Stuck(rev, done)
    ensures |w| == n + 1 && w[0] == t && IsWalk(Adj(rev), w)
    ensures forall x :: x in w ==> 0 <= x < |rev|
  {
    w := [t];
    while |w| < n + 1
      invariant 1 <= |w| <= n + 1 && w[0] == t && IsWalk(Adj(rev), w)
      invariant forall i :: 0 <= i < |w| ==> 0 <= w[i] < |rev| && w[i] !in done
    {
      var u := w[|w| - 1];
      w := w + [AnyOf(rev[u] - done)];
    }
  }

  lemma WalkReaches<T(!new)>(succ: T -> set<T>, w: seq<T>, i: int, j: int)
    requires IsWalk(succ, w) && 0 <= i <= j < |w|
    ensures Reaches(succ, w[i], w[j])
  {
    var p := w[i..j + 1];
    forall k | 0 <= k < |p| - 1 ensures p[k + 1] in succ(p[k]) {
      assert w[i + k + 1] in succ(w[i + k]);
    }
    assert Connects(succ, p, w[i], w[j]);
  }

  // ----- the sweep

  /** The lists of calculate_task_weights(). */
  datatype Sweep = Sweep(weight: seq<int>, depsLeft: seq<int>, taskDone: seq<bool>)

  /**
   * The tasks whose weight has been passed on to t: all processed ones, and the current one once its
   * edge to t is done.
   */
  function Passed(processed: set<int>, current: int, edges: set<int>, t: int): set<int> {
    if t in edges then processed + {current} else processed
  }

  ghost function Share(rev: seq<set<int>>, t: int, passed: set<int>): int
    requires 0 <= t < |rev|
  {
    (if rev[t] == {} then 1 else 0) + Sum(rev[t] * passed, Counts(rev, |rev|))
  }

  /** Task t's entries follow from the reverse dependencies that have passed on their weight. */
  ghost predicate EntryOk(rev: seq<set<int>>, s: Sweep, t: int, passed: set<int>) {
    && |s.weight| == |s.depsLeft| == |s.taskDone| == |rev| && 0 <= t < |rev|
    && s.depsLeft[t] == |rev[t] - passed|
    && (s.taskDone[t] <==> rev[t] <= passed)
    && s.weight[t] == Share(rev, t, passed)
  }

  /** The state of the sweep: current is being processed and edges are those of its edges already followed. */
  ghost predicate Sweeping(rev: seq<set<int>>, s: Sweep, processed: set<int>, current: int, edges: set<int>) {
    && |s.weight| == |s.depsLeft| == |s.taskDone| == |rev|
    && (forall t :: 0 <= t < |rev| ==> EntryOk(rev, s, t, Passed(processed, current, edges, t)))
  }

  ghost function Done(s: Sweep): set<int> {
    set t | 0 <= t < |s.taskDone| && s.taskDone[t]
  }

  lemma EdgeFollowed(rev: seq<set<int>>, s: Sweep, processed: set<int>, current: int, edges: set<int>, t: int)
    requires Sweeping(rev, s, processed, current, edges) && 0 <= t < |rev| && t !in edges
    requires current in rev[t] && current !in processed
    ensures |rev[t] - (processed + {current})| == s.depsLeft[t] - 1
    ensures rev[t] <= processed + {current} <==> s.depsLeft[t] == 1
    ensures !s.taskDone[t]
    ensures Share(rev, t, processed + {current}) == s.weight[t] + Counts(rev, |rev|)(current)
  {
    assert EntryOk(rev, s, t, Passed(processed, current, edges, t));
    OneMore(rev[t], processed, current);
    SumAdd(rev[t] * processed, current, Counts(rev, |rev|));
    hide EndWalks;
  }

  /** weight[t] += weight[current]; deps_left[t] -= 1; task_done[t] if nothing is left */
  function AfterEdge(s: Sweep, current: int, t: int): Sweep
    requires |s.weight| == |s.depsLeft| == |s.taskDone| && 0 <= t < |s.weight| && 0 <= current < |s.weight|
  {
    Sweep(s.weight[t := s.weight[t] + s.weight[current]],
          s.depsLeft[t := s.depsLeft[t] - 1],
          s.taskDone[t := s.taskDone[t] || s.depsLeft[t] == 1])
  }

  lemma EntryMoved(rev: seq<set<int>>, s: Sweep, processed: set<int>, current: int, edges: set<int>, t: int)
    requires Sweeping(rev, s, processed, current, edges) && 0 <= t < |rev| && t !in edges && 0 <= current < |rev|
    requires current in rev[t] && current !in processed && s.weight[current] == Counts(rev, |rev|)(current)
    ensures EntryOk(rev, AfterEdge(s, current, t), t, processed + {current})
  {
    hide EntryOk;
    EdgeFollowed(rev, s, processed, current, edges, t);
    hide Sweeping;
    hide Counts;
    hide Share;
    var s' := AfterEdge(s, current, t);
    assert s'.depsLeft[t] == s.depsLeft[t] - 1 && s'.weight[t] == s.weight[t] + s.weight[current];
    EntryIs(rev, s', t, processed + {current});
  }

  lemma EntryIs(rev: seq<set<int>>, s: Sweep, t: int, passed: set<int>)
    requires |s.weight| == |s.depsLeft| == |s.taskDone| == |rev| && 0 <= t < |rev|
    requires s.depsLeft[t] == |rev[t] - passed|
    requires s.taskDone[t] <==> rev[t] <= passed
    requires s.weight[t] == Share(rev, t, passed)
    ensures EntryOk(rev, s, t, passed)
  {
  }

  lemma EntryStep(rev: seq<set<int>>, s: Sweep, processed: set<int>, current: int, edges: set<int>, t: int, u: int)
    requires Sweeping(rev, s, processed, current, edges) && 0 <= t < |rev| && t !in edges && 0 <= current < |rev|
      && 0 <= u < |rev|
    requires current in rev[t] && current !in processed && s.weight[current] == Counts(rev, |rev|)(current)
    ensures EntryOk(rev, AfterEdge(s, current, t), u, Passed(processed, current, edges + {t}, u))
  {
    hide Counts;
    hide Share;
    if u == t {
      EntryMoved(rev, s, processed, current, edges, t);
    } else {
      assert EntryOk(rev, s, u, Passed(processed, current, edges, u));
    }
  }

  lemma EdgeStep(rev: seq<set<int>>, s: Sweep, processed: set<int>, current: int, edges: set<int>, t: int)
    requires Sweeping(rev, s, processed, current, edges) && 0 <= t < |rev| && t !in edges && 0 <= current < |rev|
    requires current in rev[t] && current !in processed && s.weight[current] == Counts(rev, |rev|)(current)
    ensures Sweeping(rev, AfterEdge(s, current, t), processed, current, edges + {t})
    ensures Done(AfterEdge(s, current, t)) == if s.depsLeft[t] == 1 then Done(s) + {t} else Done(s)
    ensures !s.taskDone[t] && (s.depsLeft[t] == 1 ==> rev[t] <= processed + {current})
  {
    EdgeFollowed(rev, s, processed, current, edges, t);
    hide Counts;
    hide Share;
    hide EntryOk;
    forall u | 0 <= u < |rev|
      ensures EntryOk(rev, AfterEdge(s, current, t), u, Passed(processed, current, edges + {t}, u)) {
      EntryStep(rev, s, processed, current, edges, t, u);
    }
  }

  /** With all edges of current followed, current counts as processed. */
  lemma PointDone(depends: seq<set<int>>, rev: seq<set<int>>, s: Sweep, processed: set<int>, current: int)
    requires Inverse(depends, rev) && 0 <= current < |rev| && Sweeping(rev, s, processed, current, depends[current])
    ensures Sweeping(rev, s, processed + {current}, 0, {})
  {
    forall t | 0 <= t < |rev| ensures EntryOk(rev, s, t, Passed(processed + {current}, 0, {}, t)) {
      PointDoneAt(depends, rev, s, processed, current, t);
    }
  }

  lemma PointDoneAt(depends: seq<set<int>>, rev: seq<set<int>>, s: Sweep, processed: set<int>, current: int, t: int)
    requires Inverse(depends, rev) && 0 <= current < |rev| && 0 <= t < |rev|
    requires Sweeping(rev, s, processed, current, depends[current])
    ensures EntryOk(rev, s, t, processed + {current})
  {
    assert EntryOk(rev, s, t, Passed(processed, current, depends[current], t));
    assert current in rev[t] <==> t in depends[current];
    hide Counts;
    hide Inverse;
    if t !in depends[current] {
      NotAMember(rev[t], processed, current);
    }
  }

  // ----- ranks: the order in which tasks are found done

  ghost predicate Ranks(rev: seq<set<int>>, done: set<int>, rank: map<int, int>, bound: int) {
    Ranked(rev, done, rank) && forall t :: t in done ==> rank[t] <= bound
  }

  lemma RankStep(rev: seq<set<int>>, done: set<int>, rank: map<int, int>, low: set<int>, bound: int, t: int)
    requires Ranks(rev, done, rank, bound + 1) && 0 <= t < |rev| && t !in done && 0 <= bound
    requires low <= done && (forall r :: r in low ==> rank[r] <= bound) && rev[t] <= low
    ensures Ranks(rev, done + {t}, rank[t := bound + 1], bound + 1)
    ensures forall r :: r in low ==> rank[t := bound + 1][r] == rank[r]
  {
    assert t !in low;
  }

  lemma {:induction false} Stable(rev: seq<set<int>>, done: set<int>, rank: map<int, int>, t: int, m: nat)
    requires Ranked(rev, done, rank) && t in done && rank[t] <= m
    ensures EndWalks(rev, t, m + 1) == EndWalks(rev, t, m)
    decreases m
  {
    if rev[t] != {} {
      var k := rank[t];
      assert Below(rev[t], done, rank, k);
      var x := AnyOf(rev[t]);
      assert 0 <= rank[x] < k;
      forall r | r in rev[t] ensures EndWalks(rev, r, m) == EndWalks(rev, r, m - 1) {
        Stable(rev, done, rank, r, m - 1);
      }
    }
  }

  lemma {:induction false} SumSame<T>(s: set<T>, f: T -> int, g: T -> int)
    requires forall x :: x in s ==> f(x) == g(x)
    ensures Sum(s, f) == Sum(s, g)
    decreases s
  {
    if s != {} {
      SumSame(s - {AnyOf(s)}, f, g);
    }
  }

  /** The number of end walks from a ranked task adds up from its reverse dependencies. */
  lemma CountUnfolds(rev: seq<set<int>>, done: set<int>, rank: map<int, int>, t: int)
    requires Ranked(rev, done, rank) && t in done && rank[t] <= |rev|
    ensures |EndWalks(rev, t, |rev|)| == Share(rev, t, rev[t])
  {
    var n := |rev|;
    hide Prefixed;
    hide Counts;
    assert EndWalks(rev, t, n) == if rev[t] == {} then {[t]} else Prefixed(rev, t, rev[t], n - 1);
    hide EndWalks;
    assert rev[t] * rev[t] == rev[t];
    if rev[t] != {} {
      PrefixedCard(rev, t, rev[t], n - 1);
      CountsSame(rev, done, rank, t);
    }
  }

  lemma CountsSame(rev: seq<set<int>>, done: set<int>, rank: map<int, int>, t: int)
    requires Ranked(rev, done, rank) && t in done && rank[t] <= |rev|
    ensures Sum(rev[t], Counts(rev, |rev| - 1)) == Sum(rev[t], Counts(rev, |rev|))
  {
    var n := |rev|;
    assert Below(rev[t], done, rank, rank[t]);
    forall r | r in rev[t] ensures Counts(rev, n - 1)(r) == Counts(rev, n)(r) {
      Stable(rev, done, rank, r, n - 1);
    }
    SumSame(rev[t], Counts(rev, n - 1), Counts(rev, n));
  }

  /** A task found done carries its final weight. */
  lemma DoneWeight(rev: seq<set<int>>, s: Sweep, processed: set<int>, current: int, rank: map<int, int>, t: int)
    requires Sweeping(rev, s, processed, current, {}) && t in Done(s)
    requires Ranked(rev, Done(s), rank) && rank[t] <= |rev|
    ensures s.weight[t] == Counts(rev, |rev|)(t)
  {
    assert EntryOk(rev, s, t, Passed(processed, current, {}, t));
    CountUnfolds(rev, Done(s), rank, t);
    assert rev[t] * processed == rev[t] && rev[t] * rev[t] == rev[t];
  }

  // ----- the loops

  function Elems(s: seq<int>): set<int> {
    set x | x in s
  }

  /** Between two endpoints: the pending tasks are done but not processed. */
  ghost predicate Wave(rev: seq<set<int>>, s: Sweep, processed: set<int>, pending: set<int>, rank: map<int, int>) {
    && Sweeping(rev, s, processed, 0, {})
    && processed !! pending && Done(s) == processed + pending
    && Ranks(rev, Done(s), rank, |processed|)
  }

  /** Inside the loop over the edges of current; points are the tasks found done by them. */
  ghost predicate Inner(rev: seq<set<int>>, s: Sweep, processed: set<int>, current: int, edges: set<int>,
                        done0: set<int>, points: seq<int>, rank: map<int, int>) {
    && Sweeping(rev, s, processed, current, edges)
    && 0 <= current < |rev| && current !in processed && current in done0 && processed <= done0
    && s.weight[current] == Counts(rev, |rev|)(current)
    && Done(s) == done0 + Elems(points) && done0 !! Elems(points) && NoRepeats(points)
    && Ranks(rev, Done(s), rank, |processed| + 1)
    && (forall r :: r in processed + {current} ==> rank[r] <= |processed|)
  }

  lemma InnerStep(rev: seq<set<int>>, s: Sweep, processed: set<int>, current: int, edges: set<int>,
                  done0: set<int>, points: seq<int>, rank: map<int, int>, t: int)
    requires Inner(rev, s, processed, current, edges, done0, points, rank)
    requires 0 <= t < |rev| && t !in edges && current in rev[t]
    ensures var s' := AfterEdge(s, current, t);
      if s.depsLeft[t] == 1 then Inner(rev, s', processed, current, edges + {t}, done0, points + [t],
          rank[t := |processed| + 1])
      else Inner(rev, s', processed, current, edges + {t}, done0, points, rank)
  {
    hide Ranks;
    hide Ranked;
    hide Counts;
    var s' := AfterEdge(s, current, t);
    EdgeStep(rev, s, processed, current, edges, t);
    hide Sweeping;
    assert t !in Done(s);
    assert s'.weight[current] == s.weight[current] by {
      assert s.taskDone[current] by { assert current in Done(s); }
    }
    if s.depsLeft[t] == 1 {
      RankStep(rev, Done(s), rank, processed + {current}, |processed|, t);
      assert Elems(points + [t]) == Elems(points) + {t};
      assert t !in points;
    }
  }

  lemma InnerStart(rev: seq<set<int>>, s: Sweep, processed: set<int>, pending: set<int>, rank: map<int, int>,
      current: int)
    requires Wave(rev, s, processed, pending, rank) && current in pending && |processed| <= |rev|
    ensures Inner(rev, s, processed, current, {}, Done(s), [], rank)
  {
    DoneWeight(rev, s, processed, 0, rank, current);
    hide Counts;
    forall t | 0 <= t < |rev| ensures EntryOk(rev, s, t, Passed(processed, current, {}, t)) {
      assert EntryOk(rev, s, t, Passed(processed, 0, {}, t));
    }
  }

  lemma InnerEnd(depends: seq<set<int>>, rev: seq<set<int>>, s: Sweep, processed: set<int>, current: int,
                 pending: set<int>, points: seq<int>, rank: map<int, int>)
    requires Inverse(depends, rev)
    requires current in pending && processed !! pending
    requires 0 <= current < |depends| && Inner(rev, s, processed, current, depends[current], processed + pending,
      points, rank)
    ensures Wave(rev, s, processed + {current}, pending - {current} + Elems(points), rank)
    ensures Elems(points) !! processed + pending && NoRepeats(points)
  {
    PointDone(depends, rev, s, processed, current);
    Regroup(processed, pending, Elems(points), current);
    hide Sweeping;
    hide Inverse;
    hide Done;
    hide Ranked;
    hide Elems;
  }

  /** for revdep in self.runq_depends[listid] */
  method ProcessPoint(depends: seq<set<int>>, ghost rev: seq<set<int>>, s0: Sweep, listid: int,
                      ghost processed: set<int>, ghost pending: set<int>, ghost rank0: map<int, int>)
    returns (s: Sweep, points: seq<int>, ghost rank: map<int, int>)
    requires Inverse(depends, rev) && InRange(depends) && 0 <= listid < |depends|
    requires Wave(rev, s0, processed, pending, rank0) && listid in pending && |processed| <= |rev|
    ensures Wave(rev, s, processed + {listid}, pending - {listid} + Elems(points), rank)
    ensures Elems(points) !! processed + pending && NoRepeats(points)
  {
    hide Wave;
    hide Inner;
    hide Inverse;
    hide InRange;
    s, points, rank := s0, [], rank0;
    InnerStart(rev, s0, processed, pending, rank0, listid);
    ghost var done0 := Done(s0);
    hide Done;
    var edges := depends[listid];
    assert depends[listid] - edges == {};
    while edges != {}
      invariant edges <= depends[listid]
      invariant Inner(rev, s, processed, listid, depends[listid] - edges, done0, points, rank)
    {
      var revdep := Pick(edges);
      EdgeFacts(depends, rev, listid, revdep);
      InnerLengths(rev, s, processed, listid, depends[listid] - edges, done0, points, rank);
      InnerStep(rev, s, processed, listid, depends[listid] - edges, done0, points, rank, revdep);
      assert depends[listid] - (edges - {revdep}) == depends[listid] - edges + {revdep};
      edges := edges - {revdep};
      if s.depsLeft[revdep] == 1 {
        points := points + [revdep];
        rank := rank[revdep := |processed| + 1];
      }
      s := AfterEdge(s, listid, revdep);
    }
    assert depends[listid] - edges == depends[listid];
    WaveDone(rev, s0, processed, pending, rank0);
    InnerEnd(depends, rev, s, processed, listid, pending, points, rank);
  }

  lemma EdgeFacts(depends: seq<set<int>>, rev: seq<set<int>>, current: int, t: int)
    requires Inverse(depends, rev) && InRange(depends) && 0 <= current < |depends| && t in depends[current]
    ensures |rev| == |depends| && 0 <= t < |rev| && current in rev[t]
  {
  }

  lemma WaveDone(rev: seq<set<int>>, s: Sweep, processed: set<int>, pending: set<int>, rank: map<int, int>)
    requires Wave(rev, s, processed, pending, rank)
    ensures Done(s) == processed + pending && processed !! pending
  {
  }

  lemma InnerLengths(rev: seq<set<int>>, s: Sweep, processed: set<int>, current: int, edges: set<int>,
                     done0: set<int>, points: seq<int>, rank: map<int, int>)
    requires Inner(rev, s, processed, current, edges, done0, points, rank)
    ensures |s.weight| == |s.depsLeft| == |s.taskDone| == |rev|
  {
  }

  /** One round of the outer loop over the current endpoints. */
  method Round(depends: seq<set<int>>, ghost rev: seq<set<int>>, s0: Sweep, endpoints: seq<int>,
               ghost processed0: set<int>, ghost rank0: map<int, int>)
    returns (s: Sweep, nextPoints: seq<int>, ghost processed: set<int>, ghost rank: map<int, int>)
    requires Inverse(depends, rev) && InRange(depends)
    requires Wave(rev, s0, processed0, Elems(endpoints), rank0) && NoRepeats(endpoints)
    ensures Wave(rev, s, processed, Elems(nextPoints), rank) && NoRepeats(nextPoints)
    ensures processed == processed0 + Elems(endpoints)
    ensures endpoints == [] ==> nextPoints == []
  {
    hide Wave;
    hide Inverse;
    hide InRange;
    hide NoRepeats;
    s, nextPoints, processed, rank := s0, [], processed0, rank0;
    RoundStart(endpoints, processed0);
    hide Elems;
    for k := 0 to |endpoints|
      invariant Wave(rev, s, processed, Elems(endpoints[k..]) + Elems(nextPoints), rank)
      invariant NoRepeats(nextPoints) && Elems(endpoints[k..]) !! Elems(nextPoints)
      invariant k == 0 ==> nextPoints == []
      invariant processed == processed0 + Elems(endpoints[..k])
    {
      var listid := endpoints[k];
      ghost var pending := Elems(endpoints[k..]) + Elems(nextPoints);
      PendingPoint(rev, s, processed, endpoints, k, nextPoints, rank);
      SameLength(depends, rev);
      var points;
      s, points, rank := ProcessPoint(depends, rev, s, listid, processed, pending, rank);
      NextPending(endpoints, k, nextPoints, points, processed);
      processed := processed + {listid};
      nextPoints := nextPoints + points;
    }
    RoundEnd(endpoints, nextPoints);
  }

  lemma SameLength(depends: seq<set<int>>, rev: seq<set<int>>)
    requires Inverse(depends, rev)
    ensures |depends| == |rev| && InRange(rev)
  {
  }

  lemma RoundStart(endpoints: seq<int>, processed: set<int>)
    ensures Elems(endpoints[0..]) + Elems([]) == Elems(endpoints) && NoRepeats<int>([])
    ensures processed + Elems(endpoints[..0]) == processed
    ensures Elems(endpoints[0..]) !! Elems([])
  {
    assert endpoints[0..] == endpoints;
  }

  lemma RoundEnd(endpoints: seq<int>, nextPoints: seq<int>)
    ensures Elems(endpoints[..|endpoints|]) == Elems(endpoints)
    ensures Elems(endpoints[|endpoints|..]) + Elems(nextPoints) == Elems(nextPoints)
  {
    assert endpoints[|endpoints|..] == [] && endpoints[..|endpoints|] == endpoints;
  }

  lemma PendingPoint(rev: seq<set<int>>, s: Sweep, processed: set<int>, endpoints: seq<int>, k: int,
      nextPoints: seq<int>, rank: map<int, int>)
    requires 0 <= k < |endpoints| && Wave(rev, s, processed, Elems(endpoints[k..]) + Elems(nextPoints), rank)
    ensures endpoints[k] in Elems(endpoints[k..]) + Elems(nextPoints)
    ensures 0 <= endpoints[k] < |rev| && |processed| <= |rev|
  {
    assert endpoints[k] == endpoints[k..][0];
    assert endpoints[k] in Done(s);
    assert processed <= Range(|rev|) by {
      forall x | x in processed ensures x in Range(|rev|) {
        assert x in Done(s);
      }
    }
    SubsetCard(processed, Range(|rev|));
  }

  lemma NextPending(endpoints: seq<int>, k: int, nextPoints: seq<int>, points: seq<int>, processed: set<int>)
    requires 0 <= k < |endpoints| && NoRepeats(endpoints) && NoRepeats(nextPoints) && NoRepeats(points)
    requires Elems(endpoints[k..]) !! Elems(nextPoints)
    requires Elems(points) !! processed + (Elems(endpoints[k..]) + Elems(nextPoints))
    ensures Elems(endpoints[k..]) + Elems(nextPoints) - {endpoints[k]} + Elems(points)
         == Elems(endpoints[k + 1..]) + Elems(nextPoints + points)
    ensures NoRepeats(nextPoints + points) && Elems(endpoints[k + 1..]) !! Elems(nextPoints + points)
    ensures Elems(endpoints[..k + 1]) == Elems(endpoints[..k]) + {endpoints[k]}
  {
    var e, rest, q := endpoints[k], endpoints[k + 1..], Elems(nextPoints);
    assert endpoints[k..] == [e] + rest;
    assert endpoints[..k + 1] == endpoints[..k] + [e];
    ElemsJoin([e], rest);
    ElemsJoin(endpoints[..k], [e]);
    ElemsJoin(nextPoints, points);
    assert Elems([e]) == {e};
    assert e !in Elems(rest) && e in Elems(endpoints[k..]);
    forall i, j | 0 <= i < |nextPoints| && 0 <= j < |points| ensures nextPoints[i] != points[j] {
      assert nextPoints[i] in q && points[j] in Elems(points);
    }
    RegroupMore(e, Elems(rest), q, Elems(points));
  }

  lemma ElemsJoin(a: seq<int>, b: seq<int>)
    ensures Elems(a + b) == Elems(a) + Elems(b)
  {
  }

  lemma RegroupMore<T>(e: T, rest: set<T>, q: set<T>, p: set<T>)
    requires e !in rest && e !in q
    ensures {e} + rest + q - {e} + p == rest + (q + p)
  {
  }

  /** Whether calculate_task_weights() calls the task unbuildable. */
  predicate IsProblem(s: Sweep, task: int)
    requires 0 <= task < |s.taskDone| == |s.depsLeft|
  {
    !s.taskDone[task] || s.depsLeft[task] != 0
  }

  /**
   * The weights and the unbuildable tasks: exactly those from which reverse
   * dependencies lead to a cycle. Every other task weighs as much as there are
   * walks along reverse dependencies from it to a task nothing depends on.
   */
  method CalculateTaskWeights(depends: seq<set<int>>, revdeps: seq<set<int>>, endpoints: seq<int>)
    returns (weight: seq<int>, problemTasks: seq<int>)
    requires InRange(depends) && Inverse(depends, revdeps) && NoRepeats(endpoints)
    requires forall t :: t in endpoints <==> 0 <= t < |revdeps| && revdeps[t] == {}
    ensures |weight| == |revdeps|
    ensures forall t :: t in problemTasks <==> 0 <= t < |revdeps| && ReachesCycle(revdeps, t)
    ensures forall t ::
      0 <= t < |revdeps| && !ReachesCycle(revdeps, t) ==> weight[t] == |EndWalks(revdeps, t, |revdeps|)|
  {
    var s := Initial(revdeps, endpoints);
    ghost var processed: set<int> := {};
    ghost var rank := map t | t in endpoints :: 0;
    InitialWave(revdeps, s, endpoints, rank);
    var points := endpoints;
    SameLength(depends, revdeps);
    hide Wave;
    hide Inverse;
    hide NoRepeats;
    hide Elems;
    while true
      invariant Wave(revdeps, s, processed, Elems(points), rank) && NoRepeats(points)
      decreases |revdeps| - |processed|
    {
      ghost var processed0, points0 := processed, points;
      WaveDone(revdeps, s, processed, Elems(points), rank);
      var nextPoints;
      s, nextPoints, processed, rank := Round(depends, revdeps, s, points, processed, rank);
      points := nextPoints;
      if |nextPoints| == 0 {
        break;
      }
      RoundGrows(revdeps, s, processed0, points0, processed, nextPoints, rank);
    }
    NoElems(points);
    WaveEnd(revdeps, s, processed, rank);
    weight := s.weight;
    problemTasks := ProblemTasks(s);
  }

  /** Circular dependency sanity check */
  method ProblemTasks(s: Sweep) returns (problemTasks: seq<int>)
    requires |s.taskDone| == |s.depsLeft|
    ensures forall t :: t in problemTasks <==> 0 <= t < |s.taskDone| && IsProblem(s, t)
  {
    problemTasks := [];
    for task := 0 to |s.taskDone|
      invariant forall t :: t in problemTasks <==> 0 <= t < task && IsProblem(s, t)
    {
      if !s.taskDone[task] || s.depsLeft[task] != 0 {
        problemTasks := problemTasks + [task];
      }
    }
  }

  lemma NoElems(s: seq<int>)
    requires |s| == 0
    ensures Elems(s) == {}
  {
  }

  /** All tasks unweighted and open, except for the endpoints. */
  method Initial(revdeps: seq<set<int>>, endpoints: seq<int>) returns (s: Sweep)
    requires forall t :: t in endpoints ==> 0 <= t < |revdeps|
    ensures |s.weight| == |s.depsLeft| == |s.taskDone| == |revdeps|
    ensures forall t :: 0 <= t < |revdeps| ==>
      && s.depsLeft[t] == |revdeps[t]|
      && s.weight[t] == (if t in endpoints then 1 else 0)
      && (s.taskDone[t] <==> t in endpoints)
  {
    var weight, depsLeft, taskDone := [], [], [];
    for listid := 0 to |revdeps|
      invariant |weight| == |depsLeft| == |taskDone| == listid
      invariant forall t :: 0 <= t < listid ==> weight[t] == 0 && !taskDone[t] && depsLeft[t] == |revdeps[t]|
    {
      taskDone := taskDone + [false];
      weight := weight + [0];
      depsLeft := depsLeft + [|revdeps[listid]|];
    }
    for k := 0 to |endpoints|
      invariant |weight| == |depsLeft| == |taskDone| == |revdeps|
      invariant forall t :: 0 <= t < |revdeps| ==>
        && weight[t] == (if t in endpoints[..k] then 1 else 0)
        && (taskDone[t] <==> t in endpoints[..k])
    {
      assert endpoints[..k + 1] == endpoints[..k] + [endpoints[k]];
      assert endpoints[k] in endpoints;
      weight := weight[endpoints[k] := 1];
      taskDone := taskDone[endpoints[k] := true];
    }
    assert endpoints[..|endpoints|] == endpoints;
    s := Sweep(weight, depsLeft, taskDone);
  }

  lemma InitialWave(rev: seq<set<int>>, s: Sweep, endpoints: seq<int>, rank: map<int, int>)
    requires |s.weight| == |s.depsLeft| == |s.taskDone| == |rev|
    requires forall t :: t in endpoints <==> 0 <= t < |rev| && rev[t] == {}
    requires forall t :: 0 <= t < |rev| ==>
      && s.depsLeft[t] == |rev[t]|
      && s.weight[t] == (if t in endpoints then 1 else 0)
      && (s.taskDone[t] <==> t in endpoints)
    requires rank == map t | t in endpoints :: 0
    ensures Wave(rev, s, {}, Elems(endpoints), rank)
  {
    forall t | 0 <= t < |rev| ensures EntryOk(rev, s, t, Passed({}, 0, {}, t)) {
      assert rev[t] - {} == rev[t] && rev[t] * {} == {};
      assert rev[t] <= {} <==> rev[t] == {};
      assert t in endpoints <==> rev[t] == {};
    }
    assert Done(s) == Elems(endpoints);
    forall t | t in Elems(endpoints) ensures Below(rev[t], Elems(endpoints), rank, 0) {
      assert t in endpoints;
    }
  }

  lemma RoundGrows(rev: seq<set<int>>, s: Sweep, processed0: set<int>, points: seq<int>, processed: set<int>,
      nextPoints: seq<int>, rank: map<int, int>)
    requires Wave(rev, s, processed, Elems(nextPoints), rank) && processed == processed0 + Elems(points)
    requires processed0 !! Elems(points)
    ensures |processed| <= |rev| && (points != [] ==> |processed0| < |processed|)
  {
    assert processed <= Range(|rev|) by {
      forall x | x in processed ensures x in Range(|rev|) {
        assert x in Done(s);
      }
    }
    SubsetCard(processed, Range(|rev|));
    if points != [] {
      assert points[0] in Elems(points);
      SubsetCard(processed0 + {points[0]}, processed);
    }
  }

  lemma WaveEnd(rev: seq<set<int>>, s: Sweep, processed: set<int>, rank: map<int, int>)
    requires InRange(rev) && Wave(rev, s, processed, {}, rank)
    ensures |s.weight| == |s.taskDone| == |s.depsLeft| == |rev|
    ensures forall t :: 0 <= t < |rev| ==> (IsProblem(s, t) <==> ReachesCycle(rev, t))
    ensures forall t :: 0 <= t < |rev| && !ReachesCycle(rev, t) ==> s.weight[t] == |EndWalks(rev, t, |rev|)|
  {
    forall t | 0 <= t < |rev|
      ensures IsProblem(s, t) <==> ReachesCycle(rev, t)
      ensures !ReachesCycle(rev, t) ==> s.weight[t] == |EndWalks(rev, t, |rev|)|
    {
      FinalEntry(rev, s, processed, rank, t);
    }
  }

  lemma FinalEntry(rev: seq<set<int>>, s: Sweep, processed: set<int>, rank: map<int, int>, t: int)
    requires InRange(rev) && Wave(rev, s, processed, {}, rank) && 0 <= t < |rev|
    ensures |s.weight| == |s.taskDone| == |s.depsLeft| == |rev|
    ensures IsProblem(s, t) <==> ReachesCycle(rev, t)
    ensures !ReachesCycle(rev, t) ==> s.weight[t] == |EndWalks(rev, t, |rev|)|
  {
    hide ReachesCycle;
    hide EndWalks;
    hide Ranked;
    hide Share;
    assert EntryOk(rev, s, t, Passed(processed, 0, {}, t));
    assert Done(s) == processed;
    SubsetNone(rev[t], processed);
    if s.taskDone[t] {
      assert t in Done(s);
      RankedNoCycle(rev, Done(s), rank, t);
      RoundGrows(rev, s, processed, [], processed, [], rank);
      DoneWeight(rev, s, processed, 0, rank, t);
    } else {
      assert t !in Done(s);
      EndStuck(rev, s, processed);
      StuckReachesCycle(rev, processed, t);
    }
  }

  lemma EndStuck(rev: seq<set<int>>, s: Sweep, processed: set<int>)
    requires Sweeping(rev, s, processed, 0, {}) && Done(s) == processed
    ensures Stuck(rev, processed)
  {
    hide Share;
    forall u | 0 <= u < |rev| && u !in processed ensures rev[u] - processed != {} {
      assert EntryOk(rev, s, u, Passed(processed, 0, {}, u));
      assert u !in Done(s);
      SubsetNone(rev[u], processed);
    }
  }

  lemma SubsetNone<T>(a: set<T>, p: set<T>)
    ensures a <= p <==> a - p == {}
    ensures a <= p ==> |a - p| == 0
  {
    forall x | x in a ensures x in p || x in a - p {
    }
  }

  /** No task is reported as unbuildable exactly if no task depends on itself through others. */
  lemma NoProblemsIffAcyclic(rev: seq<set<int>>, problemTasks: seq<int>)
    requires InRange(rev)
    requires forall t :: t in problemTasks <==> 0 <= t < |rev| && ReachesCycle(rev, t)
    ensures problemTasks == [] <==> forall c :: 0 <= c < |rev| ==> !OnCycle(rev, c)
  {
    forall c | 0 <= c < |rev| && OnCycle(rev, c) ensures c in problemTasks {
      ReachesSelf(Adj(rev), c);
    }
    if problemTasks != [] {
      assert ReachesCycle(rev, problemTasks[0]);
      var c :| Reaches(Adj(rev), problemTasks[0], c) && OnCycle(rev, c);
      var r :| r in Adj(rev)(c) && Reaches(Adj(rev), r, c);
    }
  }

  /** Away from cycles, the walks counted by the weight are all there are, of any length. */
  lemma AllEndWalks(rev: seq<set<int>>, t: int, w: seq<int>)
    requires InRange(rev) && 0 <= t < |rev| && !ReachesCycle(rev, t)
    ensures w in EndWalks(rev, t, |rev|) <==> IsEndWalk(rev, t, w)
  {
    EndWalksAre(rev, t, |rev|, w);
    if IsEndWalk(rev, t, w) && |w| > |rev| {
      WalkStays(rev, w);
      Repeats(w, |rev|);
      var i, j :| 0 <= i < j < |w| && w[i] == w[j];
      WalkReaches(Adj(rev), w, 0, i);
      WalkReaches(Adj(rev), w, i + 1, j);
      CycleFound(rev, w, i, j);
    }
  }

  lemma WalkStays(rev: seq<set<int>>, w: seq<int>)
    requires InRange(rev) && IsWalk(Adj(rev), w) && 0 <= w[0] < |rev|
    ensures forall x :: x in w ==> 0 <= x < |rev|
  {
    forall i | 0 <= i < |w| ensures 0 <= w[i] < |rev| {
      if i > 0 {
        assert w[i - 1 + 1] in Adj(rev)(w[i - 1]);
      }
    }
  }
}
