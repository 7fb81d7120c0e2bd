/**
 * The hashes of tasks: each is computed once, after those of its
 * dependencies, and does not depend on the order in which sets are listed.
 */
module TaskHashes {
  import opened Finite
  import opened Options
  import opened TaskPruning
  import TaskWeights
  import Versions
  import VersionOrder

  // ----- the names by which dependencies are sorted

  function AfterLast(s: string, c: char): string {
    if s == "" then "" else if s[|s| - 1] == c then "" else AfterLast(s[..|s| - 1], c) + [s[|s| - 1]]
  }

  function BeforeLast(s: string, c: char): string {
    if s == "" then "" else if s[|s| - 1] == c then s[..|s| - 1] else BeforeLast(s[..|s| - 1], c)
  }

  /** The name of a task without the directory of its file, but with the variant of a virtual file. */
  function CleanBasepath(name: string): string {
    if "virtual:" <= name then BeforeLast(name, ':') + AfterLast(name, '/') else AfterLast(name, '/')
  }

  /** A character that occurs stands last right between the two parts. */
  lemma {:induction false} CutAtLast(s: string, c: char)
    requires c in s
    ensures s == BeforeLast(s, c) + [c] + AfterLast(s, c) && c !in AfterLast(s, c)
  {
    var init, last := s[..|s| - 1], s[|s| - 1];
    assert s == init + [last];
    if last != c {
      CutAtLast(init, c);
    }
  }

  /** What a name is cleaned to: the file and task alone, with the variant in front if the file is virtual. */
  lemma CleanIs(name: string, variant: string, dir: string, file: string)
    requires '/' !in file
    ensures !("virtual:" <= name) && name == dir + "/" + file ==> CleanBasepath(name) == file
    ensures "virtual:" <= name && name == variant + ":" + dir + "/" + file && ':' !in dir && ':' !in file ==>
      CleanBasepath(name) == variant + file
  {
    if name == dir + "/" + file {
      LastIs(name, '/', dir, file);
    }
    if name == variant + ":" + dir + "/" + file && ':' !in dir && ':' !in file {
      assert name == (variant + ":" + dir) + "/" + file;
      LastIs(name, '/', variant + ":" + dir, file);
      assert name == variant + ":" + (dir + "/" + file);
      LastIs(name, ':', variant, dir + "/" + file);
    }
  }

  lemma {:induction false} LastIs(s: string, c: char, before: string, after: string)
    requires s == before + [c] + after && c !in after
    ensures BeforeLast(s, c) == before && AfterLast(s, c) == after
    decreases |after|
  {
    if after == "" {
      assert s[..|s| - 1] == before;
    } else {
      var init, last := after[..|after| - 1], after[|after| - 1];
      assert after == init + [last] && s[..|s| - 1] == before + [c] + init;
      LastIs(s[..|s| - 1], c, before, init);
    }
  }

  /** The tasks of a run queue; kept are the pairs of a task and a dependency that the recipe check does not drop. */
  datatype Queue = Queue(name: seq<string>, depends: seq<set<int>>, base: seq<string>, kept: set<(int, int)>,
      md5: string -> string)

  ghost predicate Sound(q: Queue) {
    |q.name| == |q.depends| == |q.base| && InRange(q.depends)
  }

  function KeyOf(q: Queue, t: int): string {
    if 0 <= t < |q.name| then CleanBasepath(q.name[t]) else ""
  }

  function NotAfter(q: Queue, a: int, b: int): bool {
    Versions.CompareText(KeyOf(q, a), KeyOf(q, b)) <= 0
  }

  // ----- sorted lists of dependencies

  ghost predicate Sorted(q: Queue, s: seq<int>) {
    forall i, j :: 0 <= i < j < |s| ==> NotAfter(q, s[i], s[j])
  }

  /** A list of the members of a set, without repetition. */
  ghost predicate ListsOnce(s: seq<int>, members: set<int>) {
    (forall x :: x in s <==> x in members) && forall i, j :: 0 <= i < j < |s| ==> s[i] != s[j]
  }

  /** The names of the dependencies can be told apart once cleaned. */
  ghost predicate Distinct(q: Queue, members: set<int>) {
    forall a, b :: a in members && b in members && a != b ==> KeyOf(q, a) != KeyOf(q, b)
  }

  lemma KeysDiffer(q: Queue, a: int, b: int)
    ensures NotAfter(q, a, b) || NotAfter(q, b, a)
    ensures NotAfter(q, a, b) && NotAfter(q, b, a) ==> KeyOf(q, a) == KeyOf(q, b)
  {
    Versions.TextOrder(KeyOf(q, a), KeyOf(q, b));
  }

  lemma Chained(q: Queue, a: int, b: int, c: int)
    requires NotAfter(q, a, b) && NotAfter(q, b, c)
    ensures NotAfter(q, a, c)
  {
    Versions.TextTransitive(KeyOf(q, a), KeyOf(q, b), KeyOf(q, c));
  }

  lemma RestLists(s: seq<int>, members: set<int>)
    requires ListsOnce(s, members) && s != []
    ensures ListsOnce(s[1..], members - {s[0]}) && s[0] in members
  {
    assert s[0] in s;
    forall x ensures x in s[1..] <==> x in members - {s[0]} {
      assert x in s <==> x == s[0] || x in s[1..];
    }
  }

  lemma ListedEmpty(s: seq<int>, members: set<int>)
    requires ListsOnce(s, members)
    ensures s == [] <==> members == {}
  {
    if s != [] {
      assert s[0] in s;
    }
    if members != {} {
      var x := AnyOf(members);
      assert x in s;
    }
  }

  lemma MembersListed(s: seq<int>, members: set<int>, x: int)
    requires ListsOnce(s, members) && x in members
    ensures x in s && s != []
  {
  }

  lemma FirstLeast(q: Queue, s: seq<int>, members: set<int>, x: int)
    requires Sorted(q, s) && ListsOnce(s, members) && x in members && s != []
    ensures x == s[0] || NotAfter(q, s[0], x)
  {
    var i :| 0 <= i < |s| && s[i] == x;
  }

  /** Where cleaned names are distinct, a set can be sorted in one way only. */
  lemma {:induction false} SortedOnce(q: Queue, s: seq<int>, t: seq<int>, members: set<int>)
    requires Sorted(q, s) && ListsOnce(s, members) && Sorted(q, t) && ListsOnce(t, members) && Distinct(q, members)
    ensures s == t
    decreases |s|
  {
    if s == [] {
      ListedEmpty(s, members);
      ListedEmpty(t, members);
    } else {
      RestLists(s, members);
      MembersListed(t, members, s[0]);
      RestLists(t, members);
      FirstLeast(q, s, members, t[0]);
      FirstLeast(q, t, members, s[0]);
      KeysDiffer(q, s[0], t[0]);
      assert s[0] == t[0];
      SortedOnce(q, s[1..], t[1..], members - {s[0]});
    }
  }

  /** Where they are not, both orders are sorted. */
  lemma SortedTwice(q: Queue, a: int, b: int)
    requires a != b
    ensures KeyOf(q, a) == KeyOf(q, b) <==> Sorted(q, [a, b]) && Sorted(q, [b, a])
  {
    KeysDiffer(q, a, b);
    Versions.TextOrder(KeyOf(q, a), KeyOf(q, b));
    assert [a, b][0] == a && [a, b][1] == b && [b, a][0] == b && [b, a][1] == a;
    if KeyOf(q, a) == KeyOf(q, b) {
      assert NotAfter(q, a, b) && NotAfter(q, b, a);
    }
  }

  /** Inserts behind all that sort no later, as a stable sort does. */
  method Insert(q: Queue, s: seq<int>, x: int) returns (r: seq<int>)
    requires Sorted(q, s) && x !in s
    ensures Sorted(q, r) && |r| == |s| + 1 && forall y :: y in r <==> y in s || y == x
  {
    hide Sorted;
    var k := |s|;
    while k > 0 && !NotAfter(q, s[k - 1], x)
      invariant 0 <= k <= |s| && forall i :: k <= i < |s| ==> !NotAfter(q, s[i], x)
    {
      k := k - 1;
    }
    r := s[..k] + [x] + s[k..];
    InsertSorted(q, s, x, k);
  }

  lemma InsertSorted(q: Queue, s: seq<int>, x: int, k: int)
    requires Sorted(q, s) && 0 <= k <= |s| && (k > 0 ==> NotAfter(q, s[k - 1], x))
    requires forall i :: k <= i < |s| ==> !NotAfter(q, s[i], x)
    ensures Sorted(q, s[..k] + [x] + s[k..])
    ensures forall y :: y in s[..k] + [x] + s[k..] <==> y in s || y == x
  {
    var r := s[..k] + [x] + s[k..];
    hide NotAfter;
    forall i | 0 <= i < k ensures NotAfter(q, s[i], x) {
      if i < k - 1 {
        Chained(q, s[i], s[k - 1], x);
      }
    }
    forall i | k <= i < |s| ensures NotAfter(q, x, s[i]) {
      KeysDiffer(q, x, s[i]);
    }
    InsertBetween(q, s, x, k);
    assert s == s[..k] + s[k..];
  }

  lemma InsertBetween(q: Queue, s: seq<int>, x: int, k: int)
    requires Sorted(q, s) && 0 <= k <= |s|
    requires (forall i :: 0 <= i < k ==> NotAfter(q, s[i], x)) && forall i :: k <= i < |s| ==> NotAfter(q, x, s[i])
    ensures Sorted(q, s[..k] + [x] + s[k..])
  {
    hide NotAfter;
    var r := s[..k] + [x] + s[k..];
    forall i, j | 0 <= i < j < |r| ensures NotAfter(q, r[i], r[j]) {
      var (a, b) := (if i < k then i else i - 1, if j < k then j else j - 1);
      assert i != k ==> r[i] == s[a];
      assert j != k ==> r[j] == s[b];
    }
  }

  method SortedDeps(q: Queue, deps: seq<int>) returns (r: seq<int>)
    requires forall i, j :: 0 <= i < j < |deps| ==> deps[i] != deps[j]
    ensures Sorted(q, r) && ListsOnce(r, set d | d in deps)
  {
    r := [];
    var i := 0;
    while i < |deps|
      invariant 0 <= i <= |deps| && Sorted(q, r) && |r| == i
      invariant forall y :: y in r <==> y in deps[..i]
    {
      assert deps[i] !in deps[..i];
      r := Insert(q, r, deps[i]);
      i := i + 1;
      assert deps[..i] == deps[..i - 1] + [deps[i - 1]];
    }
    assert deps[..i] == deps;
    DistinctCard(deps);
    SameSize(r, set d | d in deps);
  }

  lemma SameSize(r: seq<int>, members: set<int>)
    requires (forall y :: y in r <==> y in members) && |r| == |members|
    ensures ListsOnce(r, members)
  {
    forall i, j | 0 <= i < j < |r| ensures r[i] != r[j] {
      if r[i] == r[j] {
        var s := r[..j] + r[j + 1..];
        SetCard(s);
        forall y | y in r ensures y in s {
          var k :| 0 <= k < |r| && r[k] == y;
          assert k == j ==> r[i] == y && s[i] == y;
          assert k < j ==> s[k] == y;
          assert k > j ==> s[k - 1] == y;
        }
        assert forall y :: y in members ==> y in r && y in s;
        SubsetCard(members, set y | y in s);
      }
    }
  }

  // ----- hashing

  /** The hashes of the kept members of a list, one after another; none if one of them is not known. */
  ghost function Gathered(q: Queue, task: int, s: seq<int>, hashes: map<int, string>): Option<string> {
    if s == [] then Some("")
    else
      var (init, last) := (Gathered(q, task, s[..|s| - 1], hashes), s[|s| - 1]);
      if init == None then None
      else if (task, last) !in q.kept then init
      else if last !in hashes then None
      else Some(init.value + hashes[last])
  }

  /** The hash of a task follows from its own data and the hashes of its dependencies. */
  ghost predicate HashOk(q: Queue, hashes: map<int, string>, t: int)
    requires Sound(q) && 0 <= t < |q.depends|
  {
    t in hashes && HashIs(q, hashes, t, hashes[t])
  }

  ghost predicate HashIs(q: Queue, hashes: map<int, string>, t: int, h: string)
    requires Sound(q) && 0 <= t < |q.depends|
  {
    exists s :: HashedFrom(q, hashes, t, h, s)
  }

  ghost predicate HashedFrom(q: Queue, hashes: map<int, string>, t: int, h: string, s: seq<int>)
    requires Sound(q) && 0 <= t < |q.depends|
  {
    && Sorted(q, s) && ListsOnce(s, q.depends[t])
    && Gathered(q, t, s, hashes).Some? && h == q.md5(q.base[t] + Gathered(q, t, s, hashes).value)
  }

  lemma {:induction false} GatheredKnown(q: Queue, task: int, s: seq<int>, hashes: map<int, string>)
    ensures Gathered(q, task, s, hashes).Some? <==> forall d :: d in s && (task, d) in q.kept ==> d in hashes
  {
    if s != [] {
      GatheredKnown(q, task, s[..|s| - 1], hashes);
      assert s == s[..|s| - 1] + [s[|s| - 1]];
    }
  }

  /** What each dependency adds: its hash if it is kept, nothing otherwise. */
  lemma GatheredOne(q: Queue, task: int, d: int, hashes: map<int, string>)
    requires (task, d) in q.kept ==> d in hashes
    ensures Gathered(q, task, [d], hashes) == Some(if (task, d) in q.kept then hashes[d] else "")
  {
    assert [d][..|[d]| - 1] == [] && [d][|[d]| - 1] == d;
    if (task, d) in q.kept {
      assert "" + hashes[d] == hashes[d];
    }
  }

  /** And the hashes of a list follow each other in its order. */
  lemma {:induction false} GatheredJoin(q: Queue, task: int, a: seq<int>, b: seq<int>, hashes: map<int, string>)
    requires Gathered(q, task, a, hashes).Some? && Gathered(q, task, b, hashes).Some?
    ensures Gathered(q, task, a + b, hashes) ==
      Some(Gathered(q, task, a, hashes).value + Gathered(q, task, b, hashes).value)
    decreases |b|
  {
    if b == [] {
      assert a + b == a;
      assert Gathered(q, task, a, hashes).value + "" == Gathered(q, task, a, hashes).value;
    } else {
      var n := |b| - 1;
      assert (a + b)[..|a + b| - 1] == a + b[..n] && (a + b)[|a + b| - 1] == b[n];
      GatheredJoin(q, task, a, b[..n], hashes);
      if (task, b[n]) in q.kept {
        var x, y, z := Gathered(q, task, a, hashes).value, Gathered(q, task, b[..n], hashes).value, hashes[b[n]];
        assert x + y + z == x + (y + z);
      }
    }
  }

  function Concatenated(parts: seq<string>): string {
    if parts == [] then "" else parts[0] + Concatenated(parts[1..])
  }

  lemma {:induction false} GatheredParts(q: Queue, task: int, s: seq<int>, hashes: map<int, string>, parts: seq<string>)
    requires |parts| == |s|
    requires forall i :: 0 <= i < |s| ==> (task, s[i]) in q.kept && s[i] in hashes && parts[i] == hashes[s[i]]
    ensures Gathered(q, task, s, hashes) == Some(Concatenated(parts))
    decreases |s|
  {
    if s != [] {
      GatheredParts(q, task, s[1..], hashes, parts[1..]);
      GatheredOne(q, task, s[0], hashes);
      GatheredJoin(q, task, [s[0]], s[1..], hashes);
      assert s == [s[0]] + s[1..];
    }
  }

  /**
   * Where all dependencies are kept and their cleaned names ascend along s, the
   * hash is the digest of the task's own data and then their hashes, in that order.
   */
  lemma HashText(q: Queue, hashes: map<int, string>, t: int, h: string, s: seq<int>, parts: seq<string>)
    requires Sound(q) && 0 <= t < |q.depends| && HashIs(q, hashes, t, h)
    requires ListsOnce(s, q.depends[t]) && |parts| == |s|
    requires forall i, j :: 0 <= i < j < |s| ==> VersionOrder.TextBefore(KeyOf(q, s[i]), KeyOf(q, s[j]))
    requires forall i :: 0 <= i < |s| ==> (t, s[i]) in q.kept && s[i] in hashes && parts[i] == hashes[s[i]]
    ensures h == q.md5(q.base[t] + Concatenated(parts))
  {
    forall i, j | 0 <= i < j < |s|
      ensures NotAfter(q, s[i], s[j]) && KeyOf(q, s[i]) != KeyOf(q, s[j])
    {
      VersionOrder.TextDecides(KeyOf(q, s[i]), KeyOf(q, s[j]));
      Versions.TextOrder(KeyOf(q, s[i]), KeyOf(q, s[j]));
    }
    AscendingDistinct(q, s, q.depends[t]);
    var u :| HashedFrom(q, hashes, t, h, u);
    SortedOnce(q, s, u, q.depends[t]);
    GatheredParts(q, t, s, hashes, parts);
  }

  lemma AscendingDistinct(q: Queue, s: seq<int>, members: set<int>)
    requires ListsOnce(s, members) && forall i, j :: 0 <= i < j < |s| ==> KeyOf(q, s[i]) != KeyOf(q, s[j])
    ensures Distinct(q, members)
  {
    forall a, b | a in members && b in members && a != b ensures KeyOf(q, a) != KeyOf(q, b) {
      var i :| 0 <= i < |s| && s[i] == a;
      var j :| 0 <= j < |s| && s[j] == b;
      assert if i < j then KeyOf(q, s[i]) != KeyOf(q, s[j]) else KeyOf(q, s[j]) != KeyOf(q, s[i]);
    }
  }

  lemma {:induction false} GatheredSame(q: Queue, task: int, s: seq<int>, h: map<int, string>, h': map<int, string>)
    requires forall d :: d in s ==> d in h && d in h' && h[d] == h'[d]
    ensures Gathered(q, task, s, h) == Gathered(q, task, s, h')
  {
    if s != [] {
      GatheredSame(q, task, s[..|s| - 1], h, h');
      assert s[|s| - 1] in s;
    }
  }

  /** Tasks in an order in which each comes after its dependencies. */
  ghost predicate InOrder(q: Queue, order: seq<int>)
    requires Sound(q)
  {
    forall i :: 0 <= i < |order| ==>
        0 <= order[i] < |q.depends| && order[i] !in order[..i] && forall d ::
          d in q.depends[order[i]] ==> d in order[..i]
  }

  class SignatureGenerator {
    const queue: Queue
    var taskhash: map<int, string>

    constructor (queue: Queue)
      ensures this.queue == queue && taskhash == map[]
    {
      this.queue := queue;
      taskhash := map[];
    }

    /**
     * The hash of a task, given its dependencies in any order; fails if a dependency that is kept has
     * not been hashed.
     */
    method GetTaskHash(task: int, deps: seq<int>) returns (hash: Option<string>)
      requires Sound(queue) && 0 <= task < |queue.depends| && ListsOnce(deps, queue.depends[task])
      modifies this
      ensures hash == None <==> exists d :: d in queue.depends[task] && (task, d) in queue.kept && d !in old(taskhash)
      ensures hash == None ==> taskhash == old(taskhash)
      ensures hash.Some? ==> taskhash == old(taskhash)[task := hash.value]
      ensures hash.Some? ==> HashIs(queue, old(taskhash), task, hash.value)
    {
      hide Sorted;
      hide Gathered;
      var sorted := SortedDeps(queue, deps);
      assert (set d | d in deps) == queue.depends[task];
      GatheredKnown(queue, task, sorted, taskhash);
      var data := Gather(task, sorted);
      if data == None {
        return None;
      }
      var h := queue.md5(queue.base[task] + data.value);
      assert HashedFrom(queue, taskhash, task, h, sorted);
      taskhash := taskhash[task := h];
      return Some(h);
    }

    method Gather(task: int, sorted: seq<int>) returns (data: Option<string>)
      ensures data == Gathered(queue, task, sorted, taskhash)
    {
      data := Some("");
      var i := 0;
      while i < |sorted|
        invariant 0 <= i <= |sorted|
        invariant data.Some? && data == Gathered(queue, task, sorted[..i], taskhash)
      {
        assert sorted[..i + 1][..i] == sorted[..i];
        var dep := sorted[i];
        if (task, dep) in queue.kept {
          if dep !in taskhash {
            GatheredKnown(queue, task, sorted, taskhash);
            return None;
          }
          data := Some(data.value + taskhash[dep]);
        }
        i := i + 1;
      }
      assert sorted[..i] == sorted;
    }
  }

  // ----- the whole queue

  ghost predicate Acyclic(q: Queue) {
    forall t :: 0 <= t < |q.depends| ==> !TaskWeights.ReachesCycle(q.depends, t)
  }

  /** Among tasks that are all still to be dealt with, some has no dependency among them. */
  lemma SomeReady(q: Queue, dealt: set<int>, todeal: set<int>) returns (t: int)
    requires Sound(q) && Acyclic(q) && todeal != {}
    requires forall u :: u in todeal <==> 0 <= u < |q.depends| && u !in dealt
    ensures t in todeal && q.depends[t] <= dealt
  {
    var u := AnyOf(todeal);
    if TaskWeights.Stuck(q.depends, dealt) {
      TaskWeights.StuckReachesCycle(q.depends, dealt, u);
    }
    t :| 0 <= t < |q.depends| && t !in dealt && q.depends[t] - dealt == {};
    NothingOutside(q.depends[t], dealt);
  }

  /** Every task dealt with has its hash; the others have none. */
  ghost predicate Dealt(q: Queue, order: seq<int>, hashes: map<int, string>)
    requires Sound(q)
  {
    && InOrder(q, order) && (forall t :: t in hashes <==> t in order)
    && forall t :: t in order ==> 0 <= t < |q.depends| && HashOk(q, hashes, t)
  }

  lemma OneMoreDealt(q: Queue, order: seq<int>, hashes: map<int, string>, t: int, h: string)
    requires Sound(q) && Dealt(q, order, hashes) && 0 <= t < |q.depends| && t !in order
    requires (forall d :: d in q.depends[t] ==> d in order) && HashIs(q, hashes, t, h)
    ensures Dealt(q, order + [t], hashes[t := h])
  {
    var (order', hashes') := (order + [t], hashes[t := h]);
    hide HashIs;
    forall i | 0 <= i < |order'|
      ensures 0 <= order'[i] < |q.depends| && order'[i] !in order'[..i] && forall d ::
        d in q.depends[order'[i]] ==> d in order'[..i]
    {
      assert i < |order| ==> order'[..i] == order[..i] && order'[i] == order[i];
      assert i == |order| ==> order'[..i] == order;
    }
    forall u | u in order' ensures HashOk(q, hashes', u) && 0 <= u < |q.depends| {
      DepsInOrder(q, order, u);
      if u == t {
        StillHash(q, hashes, hashes', t, h);
      } else {
        assert HashOk(q, hashes, u);
        StillHash(q, hashes, hashes', u, hashes[u]);
      }
    }
  }

  lemma DepsInOrder(q: Queue, order: seq<int>, u: int)
    requires Sound(q) && InOrder(q, order)
    ensures u in order ==> 0 <= u < |q.depends| && forall d :: d in q.depends[u] ==> d in order
  {
    if u in order {
      var i :| 0 <= i < |order| && order[i] == u;
      assert forall d :: d in order[..i] ==> d in order;
    }
  }

  lemma StillHash(q: Queue, hashes: map<int, string>, hashes': map<int, string>, t: int, h: string)
    requires Sound(q) && 0 <= t < |q.depends| && HashIs(q, hashes, t, h)
    requires forall d :: d in q.depends[t] ==> d in hashes && d in hashes' && hashes[d] == hashes'[d]
    ensures HashIs(q, hashes', t, h)
  {
    var s :| HashedFrom(q, hashes, t, h, s);
    GatheredSame(q, t, s, hashes, hashes');
    assert HashedFrom(q, hashes', t, h, s);
  }

  /** The members of a set in some order. */
  method ListOf(s: set<int>) returns (r: seq<int>)
    ensures ListsOnce(r, s)
  {
    r := [];
    var todo := s;
    while todo != {}
      invariant todo <= s && ListsOnce(r, s - todo)
      decreases |todo|
    {
      var x := Pick(todo);
      r := r + [x];
      todo := todo - {x};
    }
    MinusNothing(s);
  }

  /**
   * Hashes every task of a queue without circular dependencies: the loop ends,
   * each task is hashed once and after its dependencies, so that hashing never
   * fails, and the hashes obey the rule for every task.
   */
  method HashAll(generator: SignatureGenerator) returns (failed: bool, ghost order: seq<int>)
    requires Sound(generator.queue) && Acyclic(generator.queue) && generator.taskhash == map[]
    modifies generator
    ensures !failed && InOrder(generator.queue, order)
    ensures forall t :: t in order <==> 0 <= t < |generator.queue.depends|
    ensures forall t :: 0 <= t < |generator.queue.depends| ==> HashOk(generator.queue, generator.taskhash, t)
  {
    var q := generator.queue;
    var dealtwith: set<int> := {};
    var todeal := Range(|q.depends|);
    order := [];
    while todeal != {}
      invariant Dealing(q, dealtwith, todeal, order, generator.taskhash)
      decreases |todeal|
    {
      hide Dealing;
      ghost var before := todeal;
      ghost var ready := DealingReady(q, dealtwith, todeal, order, generator.taskhash);
      var pass := todeal;
      while pass != {}
        invariant Dealing(q, dealtwith, todeal, order, generator.taskhash)
        invariant pass <= before && todeal <= before && q.depends[ready] <= dealtwith
        invariant pass - todeal == {} && (ready in pass || ready !in todeal)
        decreases |pass|
      {
        var task := Pick(pass);
        pass := pass - {task};
        DealingFacts(q, dealtwith, todeal, order, generator.taskhash, task);
        if q.depends[task] <= dealtwith {
          var deps := ListOf(q.depends[task]);
          ghost var hashes := generator.taskhash;
          var hash := generator.GetTaskHash(task, deps);
          if hash == None {
            return true, order;
          }
          DealingStep(q, dealtwith, todeal, order, hashes, task, hash.value);
          dealtwith := dealtwith + {task};
          todeal := todeal - {task};
          order := order + [task];
        }
      }
      FewerLeft(before, todeal, ready);
    }
    failed := false;
  }

  ghost predicate Dealing(q: Queue, dealtwith: set<int>, todeal: set<int>, order: seq<int>, hashes: map<int, string>)
    requires Sound(q)
  {
    && Dealt(q, order, hashes) && (forall t :: t in order <==> t in dealtwith)
    && forall t :: t in todeal <==> 0 <= t < |q.depends| && t !in dealtwith
  }

  lemma DealingReady(q: Queue, dealtwith: set<int>, todeal: set<int>, order: seq<int>, hashes: map<int, string>)
    returns (t: int)
    requires Sound(q) && Acyclic(q) && todeal != {} && Dealing(q, dealtwith, todeal, order, hashes)
    ensures t in todeal && 0 <= t < |q.depends| && q.depends[t] <= dealtwith
  {
    t := SomeReady(q, dealtwith, todeal);
  }

  lemma DealingFacts(q: Queue, dealtwith: set<int>, todeal: set<int>, order: seq<int>, hashes: map<int, string>, t: int)
    requires Sound(q) && Dealing(q, dealtwith, todeal, order, hashes) && t in todeal
    ensures 0 <= t < |q.depends| && t !in order
    ensures q.depends[t] <= dealtwith ==> forall d :: d in q.depends[t] ==> d in hashes
  {
  }

  lemma DealingStep(q: Queue, dealtwith: set<int>, todeal: set<int>, order: seq<int>, hashes: map<int, string>, t: int,
      h: string)
    requires Sound(q) && Dealing(q, dealtwith, todeal, order, hashes) && t in todeal && 0 <= t < |q.depends|
    requires q.depends[t] <= dealtwith && HashIs(q, hashes, t, h)
    ensures Dealing(q, dealtwith + {t}, todeal - {t}, order + [t], hashes[t := h])
  {
    hide HashIs;
    OneMoreDealt(q, order, hashes, t, h);
  }

  lemma FewerLeft<T>(before: set<T>, after: set<T>, x: T)
    requires after <= before && x in before && x !in after
    ensures |after| < |before|
  {
    SubsetCard(after, before - {x});
  }
}
