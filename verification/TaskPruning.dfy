/**
 * Steps B to D of preparing a run queue: mark what the targets need, delete
 * the rest from the parallel lists in place, renumber the dependencies and
 * derive the reverse ones.
 */
module TaskPruning {
  import opened Finite
  import opened Paths

  type Marks = seq<int>

  /** Dependencies as a successor function. */
  ghost function Adj(depends: seq<set<int>>): int -> set<int> {
    t => if 0 <= t < |depends| then depends[t] else {}
  }

  ghost predicate InRange(depends: seq<set<int>>) {
    forall t, d :: 0 <= t < |depends| && d in depends[t] ==> 0 <= d < |depends|
  }

  /** Some target needs task t. */
  ghost predicate Needed(depends: seq<set<int>>, targets: seq<int>, t: int) {
    exists k :: 0 <= k < |targets| && Reaches(Adj(depends), targets[k], t)
  }

  // ----- what deleting from a list by marks leaves

  function Rank(marks: Marks, i: int): int
    requires 0 <= i <= |marks|
    ensures 0 <= Rank(marks, i) <= i
  {
    if i == 0 then 0 else Rank(marks, i - 1) + if marks[i - 1] == 1 then 1 else 0
  }

  function Kept<T>(s: seq<T>, marks: Marks, n: int): (r: seq<T>)
    requires 0 <= n <= |s| == |marks|
    ensures |r| == Rank(marks, n)
  {
    if n == 0 then [] else Kept(s, marks, n - 1) + if marks[n - 1] == 1 then [s[n - 1]] else []
  }

  lemma {:induction false} RankMonotone(marks: Marks, i: int, j: int)
    requires 0 <= i <= j <= |marks|
    ensures Rank(marks, i) <= Rank(marks, j)
    ensures i < j && marks[i] == 1 ==> Rank(marks, i) < Rank(marks, j)
    decreases j
  {
    if i < j {
      RankMonotone(marks, i, j - 1);
    }
  }

  /** Every new number is the rank of exactly one kept task. */
  lemma {:induction false} RankOnto(marks: Marks, n: int, k: int) returns (i: int)
    requires 0 <= n <= |marks| && 0 <= k < Rank(marks, n)
    ensures 0 <= i < n && marks[i] == 1 && Rank(marks, i) == k
    decreases n
  {
    if marks[n - 1] == 1 && Rank(marks, n - 1) == k {
      i := n - 1;
    } else {
      i := RankOnto(marks, n - 1, k);
    }
  }

  lemma {:induction false} KeptAt<T>(s: seq<T>, marks: Marks, n: int, i: int)
    requires 0 <= i < n <= |s| == |marks| && marks[i] == 1
    ensures Rank(marks, i) < Rank(marks, n) && Kept(s, marks, n)[Rank(marks, i)] == s[i]
    decreases n
  {
    if i < n - 1 {
      KeptAt(s, marks, n - 1, i);
    }
  }

  /** The list as it stands after n steps of deleting. */
  ghost function Half<T>(s: seq<T>, marks: Marks, n: int): seq<T>
    requires 0 <= n <= |s| == |marks|
  {
    Kept(s, marks, n) + s[n..]
  }

  ghost function Drop<T>(s: seq<T>, at: int): seq<T>
    requires 0 <= at < |s|
  {
    s[..at] + s[at + 1..]
  }

  /** Deleting the entry the loop has got to, or moving on, is the next step. */
  lemma KeptStep<T>(s: seq<T>, marks: Marks, n: int)
    requires 0 <= n < |s| == |marks|
    ensures |Half(s, marks, n)| == |s| - n + Rank(marks, n)
    ensures Half(s, marks, n)[Rank(marks, n)] == s[n]
    ensures Half(s, marks, n + 1) == if marks[n] == 1 then Half(s, marks, n)
      else Drop(Half(s, marks, n), Rank(marks, n))
  {
  }

  // ----- the result of pruning, in terms of what was there before

  datatype Lists = Lists(fnid: seq<int>, task: seq<string>, depends: seq<set<int>>)

  ghost predicate Parallel(l: Lists) {
    |l.fnid| == |l.task| == |l.depends| && InRange(l.depends)
  }

  /** new is the subgraph of old on the marked tasks, renumbered in order by maps. */
  ghost predicate Induced(old_: Lists, new_: Lists, marks: Marks, maps: seq<int>) {
    && Parallel(old_) && Parallel(new_) && |marks| == |maps| == |old_.fnid|
    && (forall i :: 0 <= i < |maps| ==> if marks[i] == 1 then 0 <= maps[i] < |new_.fnid| else maps[i] == -1)
    && (forall i, j :: 0 <= i < j < |maps| && marks[i] == 1 && marks[j] == 1 ==> maps[i] < maps[j])
    && (forall k :: 0 <= k < |new_.fnid| ==> k in maps)
    && (forall i :: 0 <= i < |maps| && marks[i] == 1 ==>
          new_.fnid[maps[i]] == old_.fnid[i] && new_.task[maps[i]] == old_.task[i])
    && (forall i, j :: 0 <= i < |maps| && 0 <= j < |maps| && marks[i] == 1 && marks[j] == 1 ==>
          (maps[j] in new_.depends[maps[i]] <==> j in old_.depends[i]))
  }

  ghost predicate Inverse(depends: seq<set<int>>, revdeps: seq<set<int>>) {
    && |depends| == |revdeps|
    && InRange(revdeps)
    && forall i, j :: 0 <= i < |depends| && 0 <= j < |depends| ==> (i in revdeps[j] <==> j in depends[i])
  }

  /** The reverse dependencies of the tasks below n are entered, and those of n itself on done. */
  ghost predicate Reversed(depends: seq<set<int>>, revdeps: seq<set<int>>, n: int, done: set<int>) {
    |depends| == |revdeps| && forall k, r ::
      0 <= k < |revdeps| ==> (Entered(revdeps, k, r) <==> Arrived(depends, n, done, k, r))
  }

  ghost predicate Entered(revdeps: seq<set<int>>, k: int, r: int)
    requires 0 <= k < |revdeps|
  {
    r in revdeps[k]
  }

  ghost predicate Arrived(depends: seq<set<int>>, n: int, done: set<int>, k: int, r: int) {
    (0 <= r < n && r < |depends| && k in depends[r]) || (r == n && k in done)
  }

  lemma ReversedStep(depends: seq<set<int>>, revdeps: seq<set<int>>, n: int, done: set<int>, dep: int)
    requires Reversed(depends, revdeps, n, done) && 0 <= dep < |revdeps|
    ensures Reversed(depends, revdeps[dep := revdeps[dep] + {n}], n, done + {dep})
  {
    var revdeps' := revdeps[dep := revdeps[dep] + {n}];
    forall k, r | 0 <= k < |revdeps'| ensures Entered(revdeps', k, r) <==> Arrived(depends, n, done + {dep}, k, r) {
      assert Entered(revdeps, k, r) <==> Arrived(depends, n, done, k, r);
    }
  }

  lemma ReversedNext(depends: seq<set<int>>, revdeps: seq<set<int>>, n: int)
    requires 0 <= n < |depends| && Reversed(depends, revdeps, n, depends[n])
    ensures Reversed(depends, revdeps, n + 1, {})
  {
    forall k, r | 0 <= k < |revdeps| ensures Entered(revdeps, k, r) <==> Arrived(depends, n + 1, {}, k, r) {
      assert Entered(revdeps, k, r) <==> Arrived(depends, n, depends[n], k, r);
    }
  }

  lemma ReversedStart(depends: seq<set<int>>, revdeps: seq<set<int>>)
    requires |depends| == |revdeps| && forall k :: 0 <= k < |revdeps| ==> revdeps[k] == {}
    ensures Reversed(depends, revdeps, 0, {})
  {
  }

  lemma ReversedInverse(depends: seq<set<int>>, revdeps: seq<set<int>>)
    requires Reversed(depends, revdeps, |depends|, {})
    ensures Inverse(depends, revdeps)
  {
    forall i, j | 0 <= i < |depends| && 0 <= j < |depends| ensures i in revdeps[j] <==> j in depends[i] {
      assert Entered(revdeps, j, i) <==> Arrived(depends, |depends|, {}, j, i);
    }
    forall j, r | 0 <= j < |revdeps| && r in revdeps[j] ensures 0 <= r < |depends| {
      assert Entered(revdeps, j, r) <==> Arrived(depends, |depends|, {}, j, r);
    }
  }

  datatype Outcome = Ready(endpoints: seq<int>) | NoTasks | Circular(task: int, dep: int)

  /** Marked tasks other than those still being visited have marked dependencies only. */
  ghost predicate ClosedBut(depends: seq<set<int>>, marks: Marks, visiting: set<int>)
    requires |marks| == |depends|
  {
    forall t, d :: 0 <= t < |depends| && marks[t] == 1 && t !in visiting && d in depends[t] && 0 <= d < |depends| ==>
        marks[d] == 1
  }

  ghost function Unmarked(marks: Marks): set<int> {
    set t | 0 <= t < |marks| && marks[t] != 1
  }

  class RunQueueData {
    var runq_fnid: seq<int>
    var runq_task: seq<string>
    var runq_depends: seq<set<int>>
    var runq_revdeps: seq<set<int>>
    var runq_hash: seq<string>
    var runq_build: Marks

    ghost function Now(): Lists
      reads this
    {
      Lists(runq_fnid, runq_task, runq_depends)
    }

    ghost predicate Aligned()
      reads this
    {
      Parallel(Now()) && |runq_revdeps| == |runq_hash| == |runq_build| == |runq_fnid|
    }

    method MarkActive(listid: int, ghost visiting: set<int>)
      requires Aligned() && 0 <= listid < |runq_fnid| && ClosedBut(runq_depends, runq_build, visiting)
      modifies this`runq_build
      ensures |runq_build| == |old(runq_build)| && ClosedBut(runq_depends, runq_build, visiting)
      ensures runq_build[listid] == 1
      ensures forall t :: 0 <= t < |runq_build| && old(runq_build)[t] == 1 ==> runq_build[t] == 1
      ensures forall t :: 0 <= t < |runq_build| && runq_build[t] == 1 ==>
        old(runq_build)[t] == 1 || Reaches(Adj(runq_depends), listid, t)
      decreases Unmarked(runq_build)
    {
      if runq_build[listid] == 1 {
        return;
      }
      ghost var before := runq_build;
      runq_build := runq_build[listid := 1];
      assert listid in Unmarked(before) && listid !in Unmarked(runq_build);
      ReachesSelf(Adj(runq_depends), listid);
      var depends := runq_depends[listid];
      while depends != {}
        invariant depends <= runq_depends[listid]
        invariant |runq_build| == |before| && ClosedBut(runq_depends, runq_build, visiting + {listid})
        invariant forall d :: d in runq_depends[listid] - depends ==> runq_build[d] == 1
        invariant runq_build[listid] == 1
        invariant forall t :: 0 <= t < |runq_build| && before[t] == 1 ==> runq_build[t] == 1
        invariant forall t :: 0 <= t < |runq_build| && runq_build[t] == 1 ==>
          before[t] == 1 || Reaches(Adj(runq_depends), listid, t)
      {
        var depend := Pick(depends);
        depends := depends - {depend};
        ghost var marks := runq_build;
        assert Unmarked(runq_build) < Unmarked(before);
        MarkActive(depend, visiting + {listid});
        forall t | 0 <= t < |runq_build| && runq_build[t] == 1 && marks[t] != 1
          ensures Reaches(Adj(runq_depends), listid, t)
        {
          ReachesEdge(Adj(runq_depends), listid, depend);
          ReachesTrans(Adj(runq_depends), listid, depend, t);
        }
      }
    }

    /** Step B: start from nothing marked and mark each target with all it depends on. */
    method MarkTargets(targets: seq<int>)
      requires Aligned() && forall k :: 0 <= k < |targets| ==> 0 <= targets[k] < |runq_fnid|
      requires forall t :: 0 <= t < |runq_build| ==> runq_build[t] == 0
      modifies this`runq_build
      ensures Aligned() && ClosedBut(runq_depends, runq_build, {})
      ensures forall t :: 0 <= t < |runq_build| ==> (runq_build[t] == 1 <==> Needed(runq_depends, targets, t))
    {
      for k := 0 to |targets|
        invariant Aligned() && ClosedBut(runq_depends, runq_build, {})
        invariant forall i :: 0 <= i < k ==> runq_build[targets[i]] == 1
        invariant forall t :: 0 <= t < |runq_build| && runq_build[t] == 1 ==> Needed(runq_depends, targets, t)
      {
        MarkActive(targets[k], {});
      }
      forall t | 0 <= t < |runq_build| && Needed(runq_depends, targets, t) ensures runq_build[t] == 1 {
        var k :| 0 <= k < |targets| && Reaches(Adj(runq_depends), targets[k], t);
        var marked := iset u | 0 <= u < |runq_build| && runq_build[u] == 1;
        ClosedUnderReaches(Adj(runq_depends), marked, targets[k], t);
      }
    }

    ghost function All(): ParallelLists
      reads this
    {
      ParallelLists(runq_fnid, runq_task, runq_depends, runq_revdeps, runq_hash, runq_build)
    }

    /** del on each of the parallel lists */
    method Delete(at: int)
      requires All().SameLength() && 0 <= at < |runq_fnid|
      modifies this
      ensures All() == old(All()).Without(at)
    {
      runq_fnid := runq_fnid[..at] + runq_fnid[at + 1..];
      runq_task := runq_task[..at] + runq_task[at + 1..];
      runq_depends := runq_depends[..at] + runq_depends[at + 1..];
      runq_build := runq_build[..at] + runq_build[at + 1..];
      runq_revdeps := runq_revdeps[..at] + runq_revdeps[at + 1..];
      runq_hash := runq_hash[..at] + runq_hash[at + 1..];
    }

    /** Step C: delete the unmarked entries of all the lists, remembering where the others went. */
    method Prune() returns (maps: seq<int>)
      requires All().SameLength()
      modifies this
      ensures All() == old(All()).Pruned()
      ensures MapsFor(old(runq_build), maps)
    {
      hide Half;
      hide Drop;
      hide Kept;
      hide Rank;
      ghost var all0 := All();
      HalfwayStart(all0);
      maps := [];
      var delcount := 0;
      for listid := 0 to |runq_fnid|
        invariant delcount == listid - Rank(all0.build, listid) && |maps| == listid
        invariant forall i :: 0 <= i < listid ==> maps[i] == if all0.build[i] == 1 then Rank(all0.build, i) else -1
        invariant All() == all0.Halfway(listid)
      {
        var at := listid - delcount;
        HalfwayStep(all0, listid);
        if runq_build[at] == 1 {
          maps := maps + [at];
        } else {
          Delete(at);
          delcount := delcount + 1;
          maps := maps + [-1];
        }
      }
      HalfwayEnd(all0);
    }

    /** Step D, first part: renumber the dependencies; "Invalid mapping" is reported as false. */
    method Remap(maps: seq<int>) returns (ok: bool)
      requires Bounded(runq_depends, |maps|)
      modifies this`runq_depends
      ensures ok <==> AllMapped(old(runq_depends), maps)
      ensures ok ==> |runq_depends| == |old(runq_depends)|
      ensures ok ==> forall k :: 0 <= k < |runq_depends| ==> runq_depends[k] == Mapped(maps, old(runq_depends)[k])
    {
      ghost var depends := runq_depends;
      for listid := 0 to |runq_depends|
        invariant |runq_depends| == |depends| && forall k :: listid <= k < |depends| ==> runq_depends[k] == depends[k]
        invariant forall k :: 0 <= k < listid ==> Survives(depends[k], maps)
        invariant forall k :: 0 <= k < listid ==> runq_depends[k] == Mapped(maps, depends[k])
      {
        var newdeps: set<int> := {};
        var origdeps := runq_depends[listid];
        ghost var now := runq_depends;
        while origdeps != {}
          invariant origdeps <= depends[listid]
          invariant newdeps == Mapped(maps, depends[listid] - origdeps) && runq_depends == now
          invariant Survives(depends[listid] - origdeps, maps)
        {
          var origdep := Pick(origdeps);
          if maps[origdep] == -1 {
            return false;
          }
          assert depends[listid] - (origdeps - {origdep}) == (depends[listid] - origdeps) + {origdep};
          origdeps := origdeps - {origdep};
          newdeps := newdeps + {maps[origdep]};
        }
        assert depends[listid] - {} == depends[listid];
        runq_depends := runq_depends[listid := newdeps];
      }
      ok := true;
    }

    /** Generate the reverse dependencies. */
    method ReverseDepends()
      requires Aligned() && forall k :: 0 <= k < |runq_revdeps| ==> runq_revdeps[k] == {}
      modifies this`runq_revdeps
      ensures Aligned() && Inverse(runq_depends, runq_revdeps)
    {
      hide Reversed;
      ReversedStart(runq_depends, runq_revdeps);
      for listid := 0 to |runq_fnid|
        invariant Aligned() && Reversed(runq_depends, runq_revdeps, listid, {})
      {
        var deps := runq_depends[listid];
        assert runq_depends[listid] - deps == {};
        while deps != {}
          invariant Aligned() && deps <= runq_depends[listid]
          invariant Reversed(runq_depends, runq_revdeps, listid, runq_depends[listid] - deps)
        {
          var dep := Pick(deps);
          ReversedStep(runq_depends, runq_revdeps, listid, runq_depends[listid] - deps, dep);
          assert runq_depends[listid] - (deps - {dep}) == runq_depends[listid] - deps + {dep};
          deps := deps - {dep};
          runq_revdeps := runq_revdeps[dep := runq_revdeps[dep] + {listid}];
        }
        assert runq_depends[listid] - {} == runq_depends[listid];
        ReversedNext(runq_depends, runq_revdeps, listid);
      }
      ReversedInverse(runq_depends, runq_revdeps);
    }

    /** Collect the tasks nothing depends on; two tasks that depend on each other end the run. */
    method FindEndpoints() returns (outcome: Outcome)
      requires Aligned()
      ensures outcome.Ready? ==> forall k ::
        k in outcome.endpoints <==> 0 <= k < |runq_revdeps| && runq_revdeps[k] == {}
      ensures outcome.Ready? ==> forall i, j ::
        0 <= i < j < |outcome.endpoints| ==> outcome.endpoints[i] < outcome.endpoints[j]
      ensures outcome.Ready? <==> forall k :: 0 <= k < |runq_revdeps| ==> runq_revdeps[k] !! runq_depends[k]
      ensures outcome.Circular? ==>
        0 <= outcome.task < |runq_revdeps| && outcome.dep in runq_revdeps[outcome.task] * runq_depends[outcome.task]
      ensures !outcome.NoTasks?
    {
      var endpoints := [];
      for listid := 0 to |runq_fnid|
        invariant forall k :: k in endpoints <==> 0 <= k < listid && runq_revdeps[k] == {}
        invariant forall i, j :: 0 <= i < j < |endpoints| ==> endpoints[i] < endpoints[j]
        invariant forall k :: 0 <= k < listid ==> runq_revdeps[k] !! runq_depends[k]
      {
        var revdeps := runq_revdeps[listid];
        if |revdeps| == 0 {
          forall i | 0 <= i < |endpoints| ensures endpoints[i] < listid {
            assert endpoints[i] in endpoints;
          }
          endpoints := endpoints + [listid];
        }
        while revdeps != {}
          invariant revdeps <= runq_revdeps[listid]
          invariant runq_revdeps[listid] - revdeps !! runq_depends[listid]
        {
          var dep := Pick(revdeps);
          revdeps := revdeps - {dep};
          if dep in runq_depends[listid] {
            return Circular(listid, dep);
          }
        }
        assert runq_revdeps[listid] - {} == runq_revdeps[listid];
      }
      outcome := Ready(endpoints);
    }

    /** Steps B to D for the targets given by task number. */
    method Prepare(targets: seq<int>) returns (outcome: Outcome, maps: seq<int>, ghost marks: Marks)
      requires Aligned() && forall k :: 0 <= k < |targets| ==> 0 <= targets[k] < |runq_fnid|
      requires forall t :: 0 <= t < |runq_build| ==> runq_build[t] == 0 && runq_revdeps[t] == {}
      modifies this
      ensures |marks| == |old(runq_fnid)|
      ensures forall t :: 0 <= t < |marks| ==> (marks[t] == 1 <==> Needed(old(runq_depends), targets, t))
      ensures outcome.NoTasks? <==> targets == []
      ensures !outcome.NoTasks? ==>
        Induced(old(Now()), Now(), marks, maps) && Aligned() && Inverse(runq_depends, runq_revdeps)
      ensures outcome.Ready? ==> forall k ::
        k in outcome.endpoints <==> 0 <= k < |runq_revdeps| && runq_revdeps[k] == {}
      ensures outcome.Ready? ==> forall k :: 0 <= k < |runq_revdeps| ==> runq_revdeps[k] !! runq_depends[k]
      ensures outcome.Circular? ==>
        0 <= outcome.task < |runq_revdeps| && outcome.dep in runq_revdeps[outcome.task] * runq_depends[outcome.task]
    {
      ghost var lists := Now();
      MarkTargets(targets);
      marks := runq_build;
      ghost var all := All();
      maps := Prune();
      NothingKept(lists.depends, targets, marks);
      if |runq_fnid| == 0 {
        return NoTasks, maps, marks;
      }
      ghost var kept := runq_depends;
      KeptDependencies(lists, marks, maps);
      assert forall k :: 0 <= k < |kept| ==> Survives(kept[k], maps);
      var ok := Remap(maps);
      assert ok;
      RemapInduces(lists, Now(), marks, maps);
      KeptEmpty(all.revdeps, marks);
      ReverseDepends();
      outcome := FindEndpoints();
    }
  }

  ghost predicate Bounded(depends: seq<set<int>>, n: int) {
    forall k :: 0 <= k < |depends| ==> forall d :: d in depends[k] ==> 0 <= d < n
  }

  /** None of the tasks has been deleted. */
  ghost predicate Survives(s: set<int>, maps: seq<int>) {
    forall d :: d in s ==> 0 <= d < |maps| && maps[d] != -1
  }

  ghost predicate AllMapped(depends: seq<set<int>>, maps: seq<int>) {
    forall k :: 0 <= k < |depends| ==> Survives(depends[k], maps)
  }

  function Mapped(maps: seq<int>, s: set<int>): set<int>
    requires forall d :: d in s ==> 0 <= d < |maps|
  {
    set d | d in s :: maps[d]
  }

  lemma NothingKept(depends: seq<set<int>>, targets: seq<int>, marks: Marks)
    requires |marks| == |depends| && forall k :: 0 <= k < |targets| ==> 0 <= targets[k] < |depends|
    requires forall t :: 0 <= t < |marks| ==> (marks[t] == 1 <==> Needed(depends, targets, t))
    ensures Rank(marks, |marks|) == 0 <==> targets == []
  {
    if targets != [] {
      ReachesSelf(Adj(depends), targets[0]);
      assert Needed(depends, targets, targets[0]);
      RankMonotone(marks, targets[0], |marks|);
    } else {
      NoneMarked(marks, |marks|);
    }
  }

  lemma {:induction false} NoneMarked(marks: Marks, n: int)
    requires 0 <= n <= |marks| && forall t :: 0 <= t < n ==> marks[t] != 1
    ensures Rank(marks, n) == 0
    decreases n
  {
    if n > 0 {
      NoneMarked(marks, n - 1);
    }
  }

  /** Every dependency of a kept task is kept, so "Invalid mapping" cannot be reported. */
  lemma KeptDependencies(l: Lists, marks: Marks, maps: seq<int>)
    requires Parallel(l) && |marks| == |l.fnid| && ClosedBut(l.depends, marks, {}) && MapsFor(marks, maps)
    ensures AllMapped(Kept(l.depends, marks, |marks|), maps)
  {
    var kept := Kept(l.depends, marks, |marks|);
    forall k | 0 <= k < |kept| ensures Survives(kept[k], maps) {
      var i := RankOnto(marks, |marks|, k);
      KeptAt(l.depends, marks, |marks|, i);
      assert kept[k] == l.depends[i];
    }
  }

  lemma {:induction false} KeptEmpty(s: seq<set<int>>, marks: Marks)
    requires |s| == |marks| && forall k :: 0 <= k < |s| ==> s[k] == {}
    ensures forall k :: 0 <= k < |Kept(s, marks, |s|)| ==> Kept(s, marks, |s|)[k] == {}
  {
    forall k | 0 <= k < |Kept(s, marks, |s|)| ensures Kept(s, marks, |s|)[k] == {} {
      var i := RankOnto(marks, |marks|, k);
      KeptAt(s, marks, |marks|, i);
    }
  }

  /** The renumbered lists are the induced subgraph. */
  lemma RemapInduces(l: Lists, l': Lists, marks: Marks, maps: seq<int>)
    requires Parallel(l) && |marks| == |l.fnid| && ClosedBut(l.depends, marks, {}) && MapsFor(marks, maps)
    requires l'.fnid == Kept(l.fnid, marks, |marks|) && l'.task == Kept(l.task, marks, |marks|)
    requires |l'.depends| == Rank(marks, |marks|)
    requires var kept := Kept(l.depends, marks, |marks|);
      forall k :: 0 <= k < |kept| ==>
        (forall d :: d in kept[k] ==> 0 <= d < |maps|) && l'.depends[k] == Mapped(maps, kept[k])
    ensures Induced(l, l', marks, maps)
  {
    var n := |marks|;
    forall i | 0 <= i < n && marks[i] == 1
      ensures 0 <= maps[i] < |l'.fnid| && l'.fnid[maps[i]] == l.fnid[i] && l'.task[maps[i]] == l.task[i]
      ensures Kept(l.depends, marks, n)[maps[i]] == l.depends[i]
    {
      KeptAt(l.fnid, marks, n, i);
      KeptAt(l.task, marks, n, i);
      KeptAt(l.depends, marks, n, i);
    }
    forall i, j | 0 <= i < j < n && marks[i] == 1 && marks[j] == 1 ensures maps[i] < maps[j] {
      RankMonotone(marks, i, j);
    }
    forall k | 0 <= k < |l'.fnid| ensures k in maps {
      var i := RankOnto(marks, n, k);
      assert maps[i] == k;
    }
    forall i, j | 0 <= i < n && 0 <= j < n && marks[i] == 1 && marks[j] == 1
      ensures maps[j] in l'.depends[maps[i]] <==> j in l.depends[i]
    {
      RemapEdge(l, l', marks, maps, i, j);
    }
    forall k, d | 0 <= k < |l'.depends| && d in l'.depends[k] ensures 0 <= d < |l'.depends| {
      var i := RankOnto(marks, n, k);
      assert maps[i] == k;
      var e :| e in l.depends[i] && maps[e] == d;
    }
  }

  lemma RemapEdge(l: Lists, l': Lists, marks: Marks, maps: seq<int>, i: int, j: int)
    requires Parallel(l) && |marks| == |l.fnid| && ClosedBut(l.depends, marks, {}) && MapsFor(marks, maps)
    requires 0 <= i < |marks| && 0 <= j < |marks| && marks[i] == 1 && marks[j] == 1
    requires 0 <= maps[i] < |l'.depends| && l'.depends[maps[i]] == Mapped(maps, l.depends[i])
    ensures maps[j] in l'.depends[maps[i]] <==> j in l.depends[i]
  {
    if maps[j] in l'.depends[maps[i]] {
      var e :| e in l.depends[i] && maps[e] == maps[j];
      RankMonotone(marks, if e < j then e else j, if e < j then j else e);
    }
  }

  /** maps sends a kept entry to its rank among the kept ones and any other to -1. */
  ghost predicate MapsFor(marks: Marks, maps: seq<int>) {
    |maps| == |marks| && forall i :: 0 <= i < |marks| ==> maps[i] == if marks[i] == 1 then Rank(marks, i) else -1
  }

  datatype ParallelLists = ParallelLists(fnid: seq<int>, task: seq<string>, depends: seq<set<int>>,
      revdeps: seq<set<int>>,
                                         hash: seq<string>, build: Marks)
  {
    predicate SameLength() {
      |fnid| == |task| == |depends| == |revdeps| == |hash| == |build|
    }

    ghost function Without(at: int): ParallelLists
      requires SameLength() && 0 <= at < |fnid|
    {
      ParallelLists(Drop(fnid, at), Drop(task, at), Drop(depends, at),
                    Drop(revdeps, at), Drop(hash, at), Drop(build, at))
    }

    ghost function Pruned(): ParallelLists
      requires SameLength()
    {
      ParallelLists(Kept(fnid, build, |build|), Kept(task, build, |build|), Kept(depends, build, |build|),
                    Kept(revdeps, build, |build|), Kept(hash, build, |build|), Kept(build, build, |build|))
    }

    /** The lists after n steps of the pruning loop. */
    ghost function Halfway(n: int): ParallelLists
      requires SameLength() && 0 <= n <= |fnid|
    {
      ParallelLists(Half(fnid, build, n), Half(task, build, n), Half(depends, build, n),
                    Half(revdeps, build, n), Half(hash, build, n), Half(build, build, n))
    }
  }

  lemma HalfwayStep(l: ParallelLists, n: int)
    requires l.SameLength() && 0 <= n < |l.fnid|
    ensures var now, at := l.Halfway(n), Rank(l.build, n);
      && |now.fnid| == |l.fnid| - n + at
      && now.SameLength() && at < |now.fnid| && now.build[at] == l.build[n]
      && l.Halfway(n + 1) == (if l.build[n] == 1 then now else now.Without(at))
      && Rank(l.build, n + 1) == (if l.build[n] == 1 then at + 1 else at)
  {
    KeptStep(l.fnid, l.build, n);
    KeptStep(l.task, l.build, n);
    KeptStep(l.depends, l.build, n);
    KeptStep(l.revdeps, l.build, n);
    KeptStep(l.hash, l.build, n);
    KeptStep(l.build, l.build, n);
    assert Rank(l.build, n + 1) == Rank(l.build, n) + (if l.build[n] == 1 then 1 else 0);
    hide Half;
    hide Drop;
    hide Rank;
  }

  lemma HalfwayStart(l: ParallelLists)
    requires l.SameLength()
    ensures l.Halfway(0) == l && Rank(l.build, 0) == 0
  {
  }

  lemma HalfwayEnd(l: ParallelLists)
    requires l.SameLength()
    ensures l.Halfway(|l.fnid|) == l.Pruned()
  {
    var n := |l.fnid|;
    assert l.fnid[n..] == [] && l.task[n..] == [] && l.depends[n..] == [] && l.revdeps[n..] == [] && l.hash[n..] == []
        && l.build[n..] == [];
  }
}
