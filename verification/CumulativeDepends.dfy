/**
 * The recursive dependencies of recipe files: one pass over all tasks, each
 * time over all files, closes the rows kept per file. It is Warshall's
 * argument with one row shared by all tasks of a file.
 */
module CumulativeDepends {
  import opened Finite
  import opened Paths

  /** Tasks are numbers; fnid gives each task's file and depends its direct dependencies. */
  datatype TaskGraph = TaskGraph(fnid: seq<int>, depends: seq<set<int>>) {
    ghost predicate Valid() {
      && |fnid| == |depends|
      && forall t, d :: 0 <= t < |depends| && d in depends[t] ==> 0 <= d < |fnid|
    }

    /** The direct dependencies of any task of file f. */
    ghost function Direct(f: int): set<int>
      requires Valid()
    {
      set t, d | 0 <= t < |fnid| && fnid[t] == f && d in depends[t] :: d
    }

    /** From a task one steps to its file, and from there to the direct dependencies of that file's tasks. */
    ghost function Succ(): int -> set<int>
      requires Valid()
    {
      t => if 0 <= t < |fnid| then Direct(fnid[t]) else {}
    }
  }

  /** A walk from a direct dependency of f to t whose inner tasks are all below k. */
  ghost predicate Via(g: TaskGraph, k: int, f: int, t: int, p: seq<int>)
    requires g.Valid()
  {
    && IsWalk(g.Succ(), p) && p[0] in g.Direct(f) && p[|p| - 1] == t
    && forall i :: 0 <= i < |p| - 1 ==> p[i] < k
  }

  ghost predicate ReachVia(g: TaskGraph, k: int, f: int, t: int)
    requires g.Valid()
  {
    exists p :: Via(g, k, f, t, p)
  }

  /** What the rows are to hold in the end. */
  ghost predicate Recursive(g: TaskGraph, f: int, t: int)
    requires g.Valid()
  {
    exists d :: d in g.Direct(f) && Reaches(g.Succ(), d, t)
  }

  lemma WalkInRange(g: TaskGraph, f: int, p: seq<int>)
    requires g.Valid() && IsWalk(g.Succ(), p) && p[0] in g.Direct(f)
    ensures forall i :: 0 <= i < |p| ==> 0 <= p[i] < |g.fnid|
  {
    forall i | 0 <= i < |p| ensures 0 <= p[i] < |g.fnid| {
      if i > 0 {
        assert p[i - 1 + 1] in g.Succ()(p[i - 1]);
      }
    }
  }

  lemma ViaNothing(g: TaskGraph, f: int, t: int)
    requires g.Valid()
    ensures ReachVia(g, 0, f, t) <==> t in g.Direct(f)
  {
    if t in g.Direct(f) {
      assert Via(g, 0, f, t, [t]);
    }
    if p :| Via(g, 0, f, t, p) {
      WalkInRange(g, f, p);
      assert p[0] in g.Direct(f);
    }
  }

  lemma ViaEverything(g: TaskGraph, f: int, t: int)
    requires g.Valid()
    ensures ReachVia(g, |g.fnid|, f, t) <==> Recursive(g, f, t)
  {
    if p :| Via(g, |g.fnid|, f, t, p) {
      assert Connects(g.Succ(), p, p[0], t);
    }
    if d :| d in g.Direct(f) && Reaches(g.Succ(), d, t) {
      var p :| Connects(g.Succ(), p, d, t);
      WalkInRange(g, f, p);
      assert Via(g, |g.fnid|, f, t, p);
    }
  }

  /** Where k first and last occurs before the end of p. */
  lemma FirstAndLast(p: seq<int>, k: int) returns (first: int, last: int)
    requires exists i :: 0 <= i < |p| - 1 && p[i] == k
    ensures 0 <= first <= last < |p| - 1 && p[first] == k == p[last]
    ensures forall i :: 0 <= i < first || last < i < |p| - 1 ==> p[i] != k
  {
    first := 0;
    while p[first] != k
      invariant 0 <= first < |p| - 1 && forall i :: 0 <= i < first ==> p[i] != k
      invariant exists i :: 0 <= i < |p| - 1 && p[i] == k
      decreases |p| - first
    {
      first := first + 1;
    }
    last := |p| - 2;
    while p[last] != k
      invariant first <= last < |p| - 1 && forall i :: last < i < |p| - 1 ==> p[i] != k
      decreases last
    {
      last := last - 1;
    }
  }

  lemma WitnessVia(g: TaskGraph, k: int, f: int, t: int) returns (p: seq<int>)
    requires g.Valid() && ReachVia(g, k, f, t)
    ensures Via(g, k, f, t, p)
  {
    p :| Via(g, k, f, t, p);
  }

  /** One round of Warshall's algorithm, for task k. */
  lemma ViaOneMore(g: TaskGraph, k: int, f: int, t: int)
    requires g.Valid() && 0 <= k < |g.fnid|
    ensures ReachVia(g, k + 1, f, t) <==> ReachVia(g, k, f, t) || (ReachVia(g, k, f, k) && ReachVia(g, k, g.fnid[k], t))
  {
    if p :| Via(g, k, f, t, p) {
      assert Via(g, k + 1, f, t, p);
    }
    if ReachVia(g, k, f, k) && ReachVia(g, k, g.fnid[k], t) {
      var p :| Via(g, k, f, k, p);
      var q :| Via(g, k, g.fnid[k], t, q);
      JoinVia(g, k, f, t, p, q);
    }
    if ReachVia(g, k + 1, f, t) {
      var p := WitnessVia(g, k + 1, f, t);
      if i :| 0 <= i < |p| - 1 && p[i] == k {
        var first, last := FirstAndLast(p, k);
        SplitVia(g, k, f, t, p, first, last);
      } else {
        assert Via(g, k, f, t, p);
      }
    }
  }

  lemma JoinVia(g: TaskGraph, k: int, f: int, t: int, p: seq<int>, q: seq<int>)
    requires g.Valid() && 0 <= k < |g.fnid| && Via(g, k, f, k, p) && Via(g, k, g.fnid[k], t, q)
    ensures Via(g, k + 1, f, t, p + q)
  {
    var w := p + q;
    forall i | 0 <= i < |w| - 1 ensures w[i + 1] in g.Succ()(w[i]) && w[i] < k + 1 {
      if i < |p| - 1 {
        assert p[i + 1] in g.Succ()(p[i]);
      } else if i >= |p| {
        assert q[i - |p| + 1] in g.Succ()(q[i - |p|]);
      }
    }
  }

  lemma SplitVia(g: TaskGraph, k: int, f: int, t: int, p: seq<int>, first: int, last: int)
    requires g.Valid() && 0 <= k < |g.fnid| && Via(g, k + 1, f, t, p)
    requires 0 <= first <= last < |p| - 1 && p[first] == k == p[last]
    requires forall i :: 0 <= i < first || last < i < |p| - 1 ==> p[i] != k
    ensures ReachVia(g, k, f, k) && ReachVia(g, k, g.fnid[k], t)
  {
    var u, v := p[..first + 1], p[last + 1..];
    assert Via(g, k, f, k, u);
    forall i | 0 <= i < |v| - 1 ensures v[i + 1] in g.Succ()(v[i]) && v[i] < k {
      assert p[last + 1 + i + 1] in g.Succ()(p[last + 1 + i]);
    }
    assert p[last + 1] in g.Succ()(p[last]);
    assert Via(g, k, g.fnid[k], t, v);
  }

  type Rows = map<int, set<int>>

  /** Row f is closed for walks whose inner tasks are below k. */
  ghost predicate RowAt(g: TaskGraph, rows: Rows, k: int, f: int)
    requires g.Valid()
  {
    f in rows && forall t :: t in rows[f] <==> ReachVia(g, k, f, t)
  }

  /** The first loop: each file's row starts as the direct dependencies of its tasks. */
  method DirectRows(g: TaskGraph, tdepends: Rows) returns (rows: Rows, files: seq<int>)
    requires g.Valid()
    requires forall f :: f in tdepends ==> tdepends[f] <= g.Direct(f)
    ensures forall f :: f in rows <==> f in g.fnid
    ensures forall f :: f in files <==> f in rows
    ensures forall f :: f in rows ==> rows[f] == g.Direct(f)
  {
    rows, files := map[], [];
    for task := 0 to |g.fnid|
      invariant forall f :: f in rows <==> f in g.fnid[..task]
      invariant forall f :: f in files <==> f in rows
      invariant forall f :: f in rows ==> rows[f] <= g.Direct(f)
      invariant forall t, d :: 0 <= t < task && d in g.depends[t] ==> g.fnid[t] in rows && d in rows[g.fnid[t]]
    {
      assert g.fnid[..task + 1] == g.fnid[..task] + [g.fnid[task]];
      var fnid := g.fnid[task];
      if fnid !in rows {
        rows := rows[fnid := if fnid in tdepends then tdepends[fnid] else {}];
        files := files + [fnid];
      }
      forall d | d in g.depends[task] ensures d in g.Direct(fnid) {
      }
      rows := rows[fnid := rows[fnid] + g.depends[task]];
    }
    assert g.fnid[..|g.fnid|] == g.fnid;
    forall f | f in rows ensures g.Direct(f) <= rows[f] {
    }
  }

  /** Each file's row is exactly the set of tasks it depends on recursively. */
  ghost predicate Exact(g: TaskGraph, rows: Rows)
    requires g.Valid()
  {
    && (forall f :: f in rows <==> f in g.fnid)
    && forall f, t :: f in rows ==> (t in rows[f] <==> Recursive(g, f, t))
  }

  /** The double loop. */
  method Accumulate(g: TaskGraph, tdepends: Rows) returns (rows: Rows)
    requires g.Valid()
    requires forall f :: f in tdepends ==> tdepends[f] <= g.Direct(f)
    ensures Exact(g, rows)
  {
    var files;
    rows, files := DirectRows(g, tdepends);
    forall f | f in rows ensures RowAt(g, rows, 0, f) {
      forall t { ViaNothing(g, f, t); }
    }
    for task := 0 to |g.fnid|
      invariant forall f :: f in rows <==> f in g.fnid
      invariant forall f :: f in rows ==> RowAt(g, rows, task, f)
    {
      rows := Round(g, rows, files, task);
    }
    forall f, t | f in rows ensures t in rows[f] <==> Recursive(g, f, t) {
      assert RowAt(g, rows, |g.fnid|, f);
      ViaEverything(g, f, t);
    }
  }

  /** The inner loop: every file that depends on the task takes over the row of the task's file. */
  method Round(g: TaskGraph, rows0: Rows, files: seq<int>, task: int) returns (rows: Rows)
    requires g.Valid() && 0 <= task < |g.fnid|
    requires forall f :: f in rows0 <==> f in g.fnid
    requires forall f :: f in files <==> f in rows0
    requires forall f :: f in rows0 ==> RowAt(g, rows0, task, f)
    ensures rows.Keys == rows0.Keys
    ensures forall f :: f in rows ==> RowAt(g, rows, task + 1, f)
  {
    rows := rows0;
    var taskfnid := g.fnid[task];
    assert taskfnid in g.fnid;
    for m := 0 to |files|
      invariant rows.Keys == rows0.Keys && rows[taskfnid] == rows0[taskfnid]
      invariant forall f :: f in rows ==> rows[f] == rows0[f] || RowAt(g, rows, task + 1, f)
      invariant forall i :: 0 <= i < m ==> RowAt(g, rows, task + 1, files[i])
    {
      var fnid := files[m];
      assert fnid in files;
      ghost var row := rows[fnid];
      if task in rows[fnid] {
        rows := rows[fnid := rows[fnid] + {task}];
        if taskfnid in rows {
          rows := rows[fnid := rows[fnid] + rows[taskfnid]];
        }
      }
      forall t ensures t in rows[fnid] <==> ReachVia(g, task + 1, fnid, t) {
        TakeOver(g, rows0, row, fnid, task, t);
      }
    }
  }

  lemma TakeOver(g: TaskGraph, rows0: Rows, row: set<int>, f: int, task: int, t: int)
    requires g.Valid() && 0 <= task < |g.fnid| && g.fnid[task] in rows0 && f in rows0
    requires RowAt(g, rows0, task, g.fnid[task]) && RowAt(g, rows0, task, f)
    requires row == rows0[f] || (forall u :: u in row <==> ReachVia(g, task + 1, f, u))
    ensures ReachVia(g, task + 1, f, t) <==> t in row || (task in row && t in rows0[g.fnid[task]])
  {
    hide ReachVia;
    ViaOneMore(g, task, f, t);
    ViaOneMore(g, task, f, task);
  }

  /** A task with recursive task names additionally depends on every such task its file reaches. */
  ghost predicate Recurses(g: TaskGraph, names: seq<string>, recr: seq<seq<string>>, t: int, d: int)
    requires g.Valid() && |names| == |recr| == |g.fnid|
  {
    && 0 <= t < |g.fnid| && 0 <= d < |g.fnid| && d != t
    && names[d] in recr[t] && Recursive(g, g.fnid[t], d)
  }

  lemma RecursiveInRange(g: TaskGraph, f: int, t: int)
    requires g.Valid() && Recursive(g, f, t)
    ensures 0 <= t < |g.fnid|
  {
    var d :| d in g.Direct(f) && Reaches(g.Succ(), d, t);
    var p :| Connects(g.Succ(), p, d, t);
    WalkInRange(g, f, p);
  }

  lemma RowOf(g: TaskGraph, rows: Rows, t: int)
    requires g.Valid() && Exact(g, rows) && 0 <= t < |g.fnid|
    ensures g.fnid[t] in rows
  {
    var f := g.fnid[t];
    assert f in g.fnid;
  }

  /** Resolving 'recrdeptask': the dependencies gain exactly the matching tasks of the recursive closure. */
  method ResolveRecursive(g: TaskGraph, names: seq<string>, recr: seq<seq<string>>, rows: Rows)
    returns (depends: seq<set<int>>)
    requires g.Valid() && |names| == |recr| == |g.fnid|
    requires Exact(g, rows)
    ensures |depends| == |g.fnid|
    ensures forall t, d ::
      0 <= t < |g.fnid| ==> (d in depends[t] <==> d in g.depends[t] || Recurses(g, names, recr, t, d))
  {
    depends := g.depends;
    for task := 0 to |g.fnid|
      invariant |depends| == |g.fnid| && forall t :: task <= t < |g.fnid| ==> depends[t] == g.depends[t]
      invariant forall t, d ::
          0 <= t < task ==> (d in depends[t] <==> d in g.depends[t] || Recurses(g, names, recr, t, d))
    {
      RowOf(g, rows, task);
      var row := rows[g.fnid[task]];
      ghost var whole := row;
      forall d | d in row ensures 0 <= d < |g.fnid| {
        RecursiveInRange(g, g.fnid[task], d);
      }
      while row != {}
        invariant row <= whole
        invariant |depends| == |g.fnid| && forall t :: task < t < |g.fnid| ==> depends[t] == g.depends[t]
        invariant forall t, d ::
            0 <= t < task ==> (d in depends[t] <==> d in g.depends[t] || Recurses(g, names, recr, t, d))
        invariant forall d ::
            d in depends[task] <==> d in g.depends[task] || (d in whole - row && Recurses(g, names, recr, task, d))
      {
        var dep := Pick(row);
        row := row - {dep};
        if dep != task && names[dep] in recr[task] {
          depends := depends[task := depends[task] + {dep}];
        }
      }
    }
  }
}
