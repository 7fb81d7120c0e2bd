/**
 * The order in which the executor looks at tasks: by weight, or by weight with
 * all tasks of a file kept together.
 */
module TaskSchedulers {
  import opened Finite

  /** Every task below n exactly once. */
  ghost predicate Permutes(order: seq<int>, n: nat) {
    && |order| == n
    && (forall i :: 0 <= i < n ==> 0 <= order[i] < n)
    && (forall i, j :: 0 <= i < j < n ==> order[i] != order[j])
  }

  lemma Reaches(order: seq<int>, n: nat, t: int)
    requires Permutes(order, n) && 0 <= t < n
    ensures t in order
  {
    DistinctCard(order);
    var all := set x: int | x in order;
    forall x | x in all ensures x in Range(n) {
    }
    SubsetSameCard(all, Range(n));
    assert t in Range(n) && t in all;
  }

  ghost predicate Ascending(s: seq<int>) {
    forall i, j :: 0 <= i < j < |s| ==> s[i] <= s[j]
  }

  method Sorted(s: seq<int>) returns (r: seq<int>)
    ensures Ascending(r) && multiset(r) == multiset(s)
  {
    r := [];
    var i := 0;
    while i < |s|
      invariant 0 <= i <= |s| && Ascending(r) && multiset(r) == multiset(s[..i])
    {
      r := Inserted(r, s[i]);
      assert s[..i + 1] == s[..i] + [s[i]];
      i := i + 1;
    }
    assert s[..i] == s;
  }

  method Inserted(s: seq<int>, x: int) returns (r: seq<int>)
    requires Ascending(s)
    ensures Ascending(r) && multiset(r) == multiset(s) + multiset{x}
  {
    var k := 0;
    while k < |s| && s[k] <= x
      invariant 0 <= k <= |s| && forall i :: 0 <= i < k ==> s[i] <= x
    {
      k := k + 1;
    }
    r := s[..k] + [x] + s[k..];
    assert s == s[..k] + s[k..];
  }

  method IndexOf(s: seq<int>, x: int) returns (k: int)
    requires x in s
    ensures 0 <= k < |s| && s[k] == x && forall i :: 0 <= i < k ==> s[i] != x
  {
    k := 0;
    while s[k] != x
      invariant 0 <= k < |s| && x in s[k..] && forall i :: 0 <= i < k ==> s[i] != x
      decreases |s| - k
    {
      assert s[k..] == [s[k]] + s[k + 1..];
      k := k + 1;
    }
  }

  /** The weights of the tasks not yet placed; placed tasks count as -1. */
  ghost predicate Left(weight: seq<int>, copy: seq<int>, placed: seq<int>) {
    && |copy| == |weight|
    && (forall i :: 0 <= i < |placed| ==> 0 <= placed[i] < |weight|)
    && forall t :: 0 <= t < |weight| ==> copy[t] == if t in placed then -1 else weight[t]
  }

  /** Placed in ascending order of weight; among equals, the earlier task first. */
  ghost predicate Placed(weight: seq<int>, sorted: seq<int>, placed: seq<int>) {
    && |placed| <= |sorted|
    && (forall i :: 0 <= i < |placed| ==> 0 <= placed[i] < |weight| && weight[placed[i]] == sorted[i])
    && (forall i, j ::
       0 <= i < j < |placed| ==> placed[i] != placed[j] && (sorted[i] == sorted[j] ==> placed[i] < placed[j]))
    && (forall i :: 0 <= i < |placed| ==> BeforeRest(weight, sorted[i], placed, placed[i]))
  }

  /** Task p comes before all tasks of weight w that are not placed. */
  ghost predicate BeforeRest(weight: seq<int>, w: int, placed: seq<int>, p: int) {
    forall t :: 0 <= t < |weight| && weight[t] == w && t !in placed ==> p < t
  }

  lemma PlaceOne(weight: seq<int>, sorted: seq<int>, copy: seq<int>, placed: seq<int>, idx: int)
    requires Left(weight, copy, placed) && Placed(weight, sorted, placed) && |placed| < |sorted|
      && sorted[|placed|] >= 0
    requires 0 <= idx < |copy| && copy[idx] == sorted[|placed|] && forall i ::
      0 <= i < idx ==> copy[i] != sorted[|placed|]
    ensures Left(weight, copy[idx := -1], placed + [idx]) && Placed(weight, sorted, placed + [idx])
  {
    var (k, placed') := (|placed|, placed + [idx]);
    assert idx !in placed && weight[idx] == sorted[k];
    assert forall i :: 0 <= i < k ==> placed[i] in placed;
    assert forall t :: t in placed' <==> t in placed || t == idx;
    forall i | 0 <= i < k ensures BeforeRest(weight, sorted[i], placed', placed[i]) && placed[i] != idx {
      assert BeforeRest(weight, sorted[i], placed, placed[i]);
    }
    forall i | 0 <= i < k && sorted[i] == sorted[k] ensures placed[i] < idx {
      assert BeforeRest(weight, sorted[i], placed, placed[i]);
    }
    forall t | 0 <= t < |weight| && weight[t] == sorted[k] && t !in placed' ensures idx < t {
      assert copy[t] == sorted[k];
    }
  }

  /** What is still to be placed is still to be found. */
  lemma TakeOne(copy: seq<int>, rest: seq<int>, k: nat)
    requires multiset(copy) == multiset(rest) + multiset{}[-1 := k] && rest != []
    ensures rest[0] in copy
    ensures forall idx :: 0 <= idx < |copy| && copy[idx] == rest[0] ==>
              multiset(copy[idx := -1]) == multiset(rest[1..]) + multiset{}[-1 := k + 1]
  {
    assert rest == [rest[0]] + rest[1..];
    assert rest[0] in multiset(rest);
    assert rest[0] in multiset(copy);
  }

  /** Heaviest first; among tasks of equal weight, the later first. */
  ghost predicate HeaviestFirst(weight: seq<int>, order: seq<int>) {
    forall i, j :: 0 <= i < j < |order| && 0 <= order[i] < |weight| && 0 <= order[j] < |weight| ==>
      weight[order[i]] > weight[order[j]] || (weight[order[i]] == weight[order[j]] && order[i] > order[j])
  }

  function Reversed(s: seq<int>): (r: seq<int>)
    ensures |r| == |s| && forall i :: 0 <= i < |s| ==> r[i] == s[|s| - 1 - i]
  {
    seq(|s|, i requires 0 <= i < |s| => s[|s| - 1 - i])
  }

  lemma AllPlaced(weight: seq<int>, sorted: seq<int>, placed: seq<int>)
    requires Placed(weight, sorted, placed) && Ascending(sorted) && |placed| == |sorted| == |weight|
    ensures Permutes(Reversed(placed), |weight|) && HeaviestFirst(weight, Reversed(placed))
  {
    var n := |placed|;
    var r := Reversed(placed);
    hide BeforeRest;
    forall i, j | 0 <= i < j < n
      ensures r[i] != r[j] && (weight[r[i]] > weight[r[j]] || (weight[r[i]] == weight[r[j]] && r[i] > r[j]))
    {
      var (a, b) := (n - 1 - j, n - 1 - i);
      assert r[i] == placed[b] && r[j] == placed[a] && a < b;
      assert sorted[a] <= sorted[b];
    }
  }

  method SpeedOrder(weight: seq<int>) returns (prioMap: seq<int>)
    requires forall t :: 0 <= t < |weight| ==> weight[t] >= 0
    ensures Permutes(prioMap, |weight|) && HeaviestFirst(weight, prioMap)
  {
    var sortweight := Sorted(weight);
    var copyweight := weight;
    prioMap := [];
    var k := 0;
    assert sortweight[0..] == sortweight;
    assert |sortweight| == |weight| by {
      assert |multiset(sortweight)| == |multiset(weight)|;
    }
    while k < |sortweight|
      invariant 0 <= k <= |sortweight| && |prioMap| == k
      invariant Left(weight, copyweight, prioMap) && Placed(weight, sortweight, prioMap)
      invariant multiset(copyweight) == multiset(sortweight[k..]) + multiset{}[-1 := k]
    {
      hide Left;
      hide Placed;
      var w := sortweight[k];
      TakeOne(copyweight, sortweight[k..], k);
      assert sortweight[k..][1..] == sortweight[k + 1..];
      WeightsPositive(weight, sortweight, k);
      var idx := IndexOf(copyweight, w);
      PlaceOne(weight, sortweight, copyweight, prioMap, idx);
      prioMap := prioMap + [idx];
      copyweight := copyweight[idx := -1];
      k := k + 1;
    }
    AllPlaced(weight, sortweight, prioMap);
    prioMap := Reversed(prioMap);
  }

  lemma WeightsPositive(weight: seq<int>, sorted: seq<int>, k: int)
    requires (forall t :: 0 <= t < |weight| ==> weight[t] >= 0) && multiset(sorted) == multiset(weight)
      && 0 <= k < |sorted|
    ensures sorted[k] >= 0
  {
    assert sorted[k] in multiset(sorted);
    assert sorted[k] in multiset(weight);
    assert sorted[k] in weight;
  }

  // ----- files together

  /** The tasks of a list that belong, or do not belong, to a file. */
  function Of(s: seq<int>, fnid: seq<int>, f: int): (r: seq<int>)
    requires forall i :: 0 <= i < |s| ==> 0 <= s[i] < |fnid|
    ensures forall i :: 0 <= i < |r| ==> 0 <= r[i] < |fnid| && fnid[r[i]] == f
    ensures |r| <= |s|
  {
    if s == [] then [] else Of(s[..|s| - 1], fnid, f) + if fnid[s[|s| - 1]] == f then [s[|s| - 1]] else []
  }

  function NotOf(s: seq<int>, fnid: seq<int>, f: int): (r: seq<int>)
    requires forall i :: 0 <= i < |s| ==> 0 <= s[i] < |fnid|
    ensures forall i :: 0 <= i < |r| ==> 0 <= r[i] < |fnid| && fnid[r[i]] != f
    ensures |r| <= |s|
  {
    if s == [] then [] else NotOf(s[..|s| - 1], fnid, f) + if fnid[s[|s| - 1]] != f then [s[|s| - 1]] else []
  }

  /** The tasks of the first task's file first, in their order; then the rest likewise. */
  function Together(base: seq<int>, fnid: seq<int>): seq<int>
    requires forall i :: 0 <= i < |base| ==> 0 <= base[i] < |fnid|
    decreases |base|
  {
    if base == [] then []
    else
      var (f, rest) := (fnid[base[0]], base[1..]);
      [base[0]] + Of(rest, fnid, f) + Together(NotOf(rest, fnid, f), fnid)
  }

  lemma {:induction false} Split(s: seq<int>, fnid: seq<int>, f: int)
    requires forall i :: 0 <= i < |s| ==> 0 <= s[i] < |fnid|
    ensures multiset(Of(s, fnid, f)) + multiset(NotOf(s, fnid, f)) == multiset(s)
  {
    if s != [] {
      var (init, last) := (s[..|s| - 1], s[|s| - 1]);
      Split(init, fnid, f);
      assert s == init + [last];
    }
  }

  /** No task is lost or added. */
  lemma {:induction false} TogetherKeeps(base: seq<int>, fnid: seq<int>)
    requires forall i :: 0 <= i < |base| ==> 0 <= base[i] < |fnid|
    ensures multiset(Together(base, fnid)) == multiset(base)
    decreases |base|
  {
    hide Of;
    hide NotOf;
    if base != [] {
      var (f, rest) := (fnid[base[0]], base[1..]);
      Split(rest, fnid, f);
      TogetherKeeps(NotOf(rest, fnid, f), fnid);
      var (head, others) := (Of(rest, fnid, f), NotOf(rest, fnid, f));
      Recombine(base[0], head, others, rest, Together(others, fnid));
      assert base == [base[0]] + rest;
    }
  }

  lemma Recombine<T>(x: T, head: seq<T>, others: seq<T>, rest: seq<T>, tail: seq<T>)
    requires multiset(head) + multiset(others) == multiset(rest) && multiset(tail) == multiset(others)
    ensures multiset([x] + head + tail) == multiset([x] + rest)
  {
  }

  lemma MembersKept(base: seq<int>, fnid: seq<int>, x: int)
    requires forall i :: 0 <= i < |base| ==> 0 <= base[i] < |fnid|
    ensures x in Together(base, fnid) <==> x in base
  {
    TogetherKeeps(base, fnid);
    assert x in multiset(base) <==> x in multiset(Together(base, fnid));
  }

  /** Between two tasks of a file stand only tasks of that file. */
  lemma {:induction false} FilesTogether(base: seq<int>, fnid: seq<int>, i: int, j: int, k: int)
    requires forall n :: 0 <= n < |base| ==> 0 <= base[n] < |fnid|
    requires 0 <= i < j < k < |Together(base, fnid)|
    ensures var t := Together(base, fnid);
      && 0 <= t[i] < |fnid| && 0 <= t[j] < |fnid| && 0 <= t[k] < |fnid|
      && (fnid[t[i]] == fnid[t[k]] ==> fnid[t[j]] == fnid[t[i]])
    decreases |base|
  {
    hide Of;
    hide NotOf;
    var (f, rest) := (fnid[base[0]], base[1..]);
    var (head, tail) := ([base[0]] + Of(rest, fnid, f), Together(NotOf(rest, fnid, f), fnid));
    var t := Together(base, fnid);
    assert t == head + tail;
    forall n | 0 <= n < |t| ensures 0 <= t[n] < |fnid| && (fnid[t[n]] == f <==> n < |head|) {
      if n >= |head| {
        var other := NotOf(rest, fnid, f);
        MembersKept(other, fnid, t[n]);
        assert t[n] == tail[n - |head|] && t[n] in tail;
        var m :| 0 <= m < |other| && other[m] == t[n];
      }
    }
    if i >= |head| {
      FilesTogether(NotOf(rest, fnid, f), fnid, i - |head|, j - |head|, k - |head|);
    }
  }

  /** Where in a list the tasks stand that were taken out of it. */
  ghost predicate TakenAt(s: seq<int>, r: seq<int>, at: seq<nat>) {
    && |at| == |r| && (forall i, j :: 0 <= i < j < |at| ==> at[i] < at[j])
    && (forall i :: 0 <= i < |at| ==> at[i] < |s| && r[i] == s[at[i]])
  }

  lemma {:induction false} OfAt(s: seq<int>, fnid: seq<int>, f: int) returns (at: seq<nat>)
    requires forall i :: 0 <= i < |s| ==> 0 <= s[i] < |fnid|
    ensures TakenAt(s, Of(s, fnid, f), at)
  {
    at := [];
    if s != [] {
      var n := |s| - 1;
      at := OfAt(s[..n], fnid, f);
      at := at + if fnid[s[n]] == f then [n] else [];
    }
  }

  lemma {:induction false} NotOfAt(s: seq<int>, fnid: seq<int>, f: int) returns (at: seq<nat>)
    requires forall i :: 0 <= i < |s| ==> 0 <= s[i] < |fnid|
    ensures TakenAt(s, NotOf(s, fnid, f), at)
    ensures forall k :: 0 <= k < |s| && fnid[s[k]] != f ==> k in at
  {
    at := [];
    if s != [] {
      var n := |s| - 1;
      var before := NotOfAt(s[..n], fnid, f);
      at := before + if fnid[s[n]] != f then [n] else [];
      forall k | 0 <= k < |s| && fnid[s[k]] != f ensures k in at {
        assert k < n ==> s[..n][k] == s[k] && k in before;
      }
    }
  }

  /** Task x stands before task y wherever they stand. */
  ghost predicate StandsBefore(base: seq<int>, x: int, y: int) {
    forall p, q :: 0 <= p < |base| && 0 <= q < |base| && base[p] == x && base[q] == y ==> p < q
  }

  /** File f has a task before all tasks of file g. */
  ghost predicate StartsBefore(base: seq<int>, fnid: seq<int>, f: int, g: int) {
    exists p :: 0 <= p < |base| && 0 <= base[p] < |fnid| && fnid[base[p]] == f
      && forall q :: 0 <= q < |base| && 0 <= base[q] < |fnid| && fnid[base[q]] == g ==> p < q
  }

  ghost predicate Distinct(base: seq<int>) {
    forall i, j :: 0 <= i < j < |base| ==> base[i] != base[j]
  }

  /** Order in a part of a list is order in the list. */
  lemma PartBefore(base: seq<int>, part: seq<int>, at: seq<nat>, i: int, j: int)
    requires base != [] && Distinct(base) && TakenAt(base[1..], part, at) && 0 <= i < |part| && 0 <= j < |part|
    requires StandsBefore(part, part[i], part[j])
    ensures StandsBefore(base, part[i], part[j])
  {
    forall p, q | 0 <= p < |base| && 0 <= q < |base| && base[p] == part[i] && base[q] == part[j] ensures p < q {
      assert base[at[i] + 1] == base[p] && base[at[j] + 1] == base[q];
      assert i < j;
    }
  }

  lemma PartDistinct(base: seq<int>, part: seq<int>, at: seq<nat>)
    requires base != [] && Distinct(base) && TakenAt(base[1..], part, at)
    ensures Distinct(part)
  {
    forall i, j | 0 <= i < j < |part| ensures part[i] != part[j] {
      assert part[i] == base[at[i] + 1] && part[j] == base[at[j] + 1];
    }
  }

  /** A file that starts before another in the rest does so in the whole list. */
  lemma PartStarts(base: seq<int>, fnid: seq<int>, part: seq<int>, at: seq<nat>, f: int, g: int)
    requires base != [] && TakenAt(base[1..], part, at) && (forall i :: 0 <= i < |base| ==> 0 <= base[i] < |fnid|)
    requires forall k :: 0 <= k < |base[1..]| && fnid[base[1..][k]] != fnid[base[0]] ==> k in at
    requires StartsBefore(part, fnid, f, g) && g != fnid[base[0]]
    ensures StartsBefore(base, fnid, f, g)
  {
    var p :| 0 <= p < |part| && 0 <= part[p] < |fnid| && fnid[part[p]] == f
      && forall q :: 0 <= q < |part| && 0 <= part[q] < |fnid| && fnid[part[q]] == g ==> p < q;
    assert base[at[p] + 1] == part[p];
    forall q | 0 <= q < |base| && fnid[base[q]] == g ensures at[p] + 1 < q {
      assert q > 0 && base[1..][q - 1] == base[q];
      var k :| 0 <= k < |at| && at[k] == q - 1;
      assert part[k] == base[q];
    }
  }

  /** Tasks of one file in the order that they had; of tasks of two files that one whose file had the first task. */
  ghost predicate InOrder(base: seq<int>, fnid: seq<int>, x: int, y: int) {
    && 0 <= x < |fnid| && 0 <= y < |fnid|
    && (fnid[x] == fnid[y] ==> StandsBefore(base, x, y))
    && (fnid[x] != fnid[y] ==> StartsBefore(base, fnid, fnid[x], fnid[y]))
  }

  /** All of the list is in that order: files as their first tasks stood, and tasks within a file as they stood. */
  lemma {:induction false} TogetherOrder(base: seq<int>, fnid: seq<int>, i: int, j: int)
    requires (forall n :: 0 <= n < |base| ==> 0 <= base[n] < |fnid|) && Distinct(base)
    requires 0 <= i < j < |Together(base, fnid)|
    ensures InOrder(base, fnid, Together(base, fnid)[i], Together(base, fnid)[j])
    decreases |base|
  {
    hide Of;
    hide NotOf;
    hide InOrder;
    hide Distinct;
    hide TakenAt;
    var (f, rest) := (fnid[base[0]], base[1..]);
    var (same, others) := (Of(rest, fnid, f), NotOf(rest, fnid, f));
    var (head, tail) := ([base[0]] + same, Together(others, fnid));
    var n := |head|;
    TogetherSplits(base, fnid);
    if j < n {
      HeadPair(base, fnid, same, i, j);
    } else if i < n {
      TailTask(base, fnid, others, j - n);
      CrossPair(base, fnid, same, i, tail[j - n]);
    } else {
      TailTask(base, fnid, others, i - n);
      TailTask(base, fnid, others, j - n);
      var at := NotOfAt(rest, fnid, f);
      PartDistinct(base, others, at);
      TogetherOrder(others, fnid, i - n, j - n);
      TailOrder(base, fnid, others, at, tail[i - n], tail[j - n]);
    }
  }

  lemma HeadPair(base: seq<int>, fnid: seq<int>, same: seq<int>, i: int, j: int)
    requires base != [] && (forall n :: 0 <= n < |base| ==> 0 <= base[n] < |fnid|) && Distinct(base)
    requires same == Of(base[1..], fnid, fnid[base[0]]) && 0 <= i < j < 1 + |same|
    ensures InOrder(base, fnid, ([base[0]] + same)[i], ([base[0]] + same)[j])
  {
    hide StandsBefore;
    var at := OfAt(base[1..], fnid, fnid[base[0]]);
    HeadBefore(base, same, at, i, j);
    SameFile(base, same, fnid, i, j);
  }

  lemma CrossPair(base: seq<int>, fnid: seq<int>, same: seq<int>, i: int, y: int)
    requires base != [] && forall n :: 0 <= n < |base| ==> 0 <= base[n] < |fnid|
    requires same == Of(base[1..], fnid, fnid[base[0]]) && 0 <= i < 1 + |same|
    requires 0 <= y < |fnid| && fnid[y] != fnid[base[0]]
    ensures InOrder(base, fnid, ([base[0]] + same)[i], y)
  {
    hide StartsBefore;
    FirstStarts(base, fnid, fnid[y]);
    SameFile(base, same, fnid, i, 0);
  }

  /** What Together is. */
  lemma TogetherSplits(base: seq<int>, fnid: seq<int>)
    requires base != [] && forall n :: 0 <= n < |base| ==> 0 <= base[n] < |fnid|
    ensures var (f, rest) := (fnid[base[0]], base[1..]);
      Together(base, fnid) == [base[0]] + Of(rest, fnid, f) + Together(NotOf(rest, fnid, f), fnid)
  {
  }

  /** The tasks of its second part are those of other files. */
  lemma TailTask(base: seq<int>, fnid: seq<int>, others: seq<int>, k: int)
    requires base != [] && forall n :: 0 <= n < |base| ==> 0 <= base[n] < |fnid|
    requires others == NotOf(base[1..], fnid, fnid[base[0]]) && 0 <= k < |Together(others, fnid)|
    ensures var x := Together(others, fnid)[k]; 0 <= x < |fnid| && fnid[x] != fnid[base[0]] && x in others
  {
    var x := Together(others, fnid)[k];
    MembersKept(others, fnid, x);
    var m :| 0 <= m < |others| && others[m] == x;
  }

  lemma SameFile(base: seq<int>, same: seq<int>, fnid: seq<int>, i: int, j: int)
    requires base != [] && 0 <= base[0] < |fnid| && 0 <= i < 1 + |same| && 0 <= j < 1 + |same|
    requires forall k :: 0 <= k < |same| ==> 0 <= same[k] < |fnid| && fnid[same[k]] == fnid[base[0]]
    ensures var head := [base[0]] + same;
      && 0 <= head[i] < |fnid| && 0 <= head[j] < |fnid| && fnid[head[i]] == fnid[head[j]] == fnid[base[0]]
  {
  }

  lemma TailOrder(base: seq<int>, fnid: seq<int>, others: seq<int>, at: seq<nat>, x: int, y: int)
    requires base != [] && Distinct(base) && TakenAt(base[1..], others, at) && x in others && y in others
    requires forall n :: 0 <= n < |base| ==> 0 <= base[n] < |fnid|
    requires forall k :: 0 <= k < |base[1..]| && fnid[base[1..][k]] != fnid[base[0]] ==> k in at
    requires InOrder(others, fnid, x, y) && fnid[y] != fnid[base[0]]
    ensures InOrder(base, fnid, x, y)
  {
    hide StandsBefore;
    hide StartsBefore;
    hide Distinct;
    hide TakenAt;
    if fnid[x] == fnid[y] {
      var l :| 0 <= l < |others| && others[l] == x;
      var m :| 0 <= m < |others| && others[m] == y;
      PartBefore(base, others, at, l, m);
    } else {
      PartStarts(base, fnid, others, at, fnid[x], fnid[y]);
    }
  }

  lemma FirstStarts(base: seq<int>, fnid: seq<int>, g: int)
    requires base != [] && (forall i :: 0 <= i < |base| ==> 0 <= base[i] < |fnid|) && g != fnid[base[0]]
    ensures StartsBefore(base, fnid, fnid[base[0]], g)
  {
    assert forall q :: 0 <= q < |base| && fnid[base[q]] == g ==> 0 < q;
  }

  lemma HeadBefore(base: seq<int>, part: seq<int>, at: seq<nat>, i: int, j: int)
    requires base != [] && Distinct(base) && TakenAt(base[1..], part, at) && 0 <= i < j < |[base[0]] + part|
    ensures StandsBefore(base, ([base[0]] + part)[i], ([base[0]] + part)[j])
  {
    var head := [base[0]] + part;
    assert head[j] == part[j - 1] == base[at[j - 1] + 1];
    if i > 0 {
      assert head[i] == part[i - 1] == base[at[i - 1] + 1];
    }
  }

  method CompletionOrder(speed: seq<int>, fnid: seq<int>) returns (prioMap: seq<int>)
    requires forall i :: 0 <= i < |speed| ==> 0 <= speed[i] < |fnid|
    ensures prioMap == Together(speed, fnid)
  {
    hide Of;
    hide NotOf;
    var basemap := speed;
    prioMap := [];
    while basemap != []
      invariant forall i :: 0 <= i < |basemap| ==> 0 <= basemap[i] < |fnid|
      invariant prioMap + Together(basemap, fnid) == Together(speed, fnid)
      decreases |basemap|
    {
      var entry := basemap[0];
      ghost var was := basemap;
      basemap := basemap[1..];
      prioMap := prioMap + [entry];
      var same, others := Part(basemap, fnid, fnid[entry]);
      prioMap := prioMap + same;
      basemap := others;
    }
  }

  /** Takes the tasks of a file out of a list. */
  method Part(s: seq<int>, fnid: seq<int>, f: int) returns (same: seq<int>, others: seq<int>)
    requires forall i :: 0 <= i < |s| ==> 0 <= s[i] < |fnid|
    ensures same == Of(s, fnid, f) && others == NotOf(s, fnid, f)
  {
    same, others := [], [];
    var i := 0;
    while i < |s|
      invariant 0 <= i <= |s| && same == Of(s[..i], fnid, f) && others == NotOf(s[..i], fnid, f)
    {
      assert s[..i + 1][..i] == s[..i];
      if fnid[s[i]] == f {
        same := same + [s[i]];
      } else {
        others := others + [s[i]];
      }
      i := i + 1;
    }
    assert s[..i] == s;
  }
}
