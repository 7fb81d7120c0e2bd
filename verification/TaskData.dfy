/**
 * Failing a file: it is struck from the lists of providers, targets left
 * without a provider fail, and so do the files that need them, by mutual
 * recursion over lists that change under the scan.
 */
module TaskData {
  import opened Finite

  /** Build and runtime targets are numbered apart; one map keyed by both kinds stands for the two of them. */
  datatype Target = Build(id: int) | Run(id: int)

  /** Which files need which targets: by their own dependencies, or by those of one of their tasks. */
  datatype Links = Links(depids: map<int, set<Target>>, tasksFnid: seq<int>, tasksIdepends: seq<set<Target>>)

  ghost predicate WellFormed(l: Links) {
    && |l.tasksFnid| == |l.tasksIdepends|
    && forall k :: 0 <= k < |l.tasksIdepends| ==> OnlyBuild(l.tasksIdepends[k])
  }

  ghost predicate OnlyBuild(s: set<Target>) {
    forall t :: t in s ==> t.Build?
  }

  ghost predicate Needs(l: Links, g: int, t: Target) {
    || (g in l.depids && t in l.depids[g])
    || exists k :: 0 <= k < |l.tasksFnid| && k < |l.tasksIdepends| && l.tasksFnid[k] == g && t in l.tasksIdepends[k]
  }

  datatype State = State(failed: set<int>, targets: map<Target, seq<int>>, failedTargets: set<Target>)

  // ----- consistency

  ghost predicate Distinct(s: State) {
    forall t :: t in s.targets ==> NoRepeats(s.targets[t])
  }

  /** Only files whose removal is under way are listed as providers after they failed. */
  ghost predicate Struck(s: State, busy: set<int>) {
    forall t, f :: t in s.targets && f in s.targets[t] && f in s.failed ==> f in busy
  }

  /** Targets without a provider left have failed. */
  ghost predicate EmptyFailed(s: State, but: set<Target>) {
    forall t :: t in s.targets && s.targets[t] == [] ==> t in s.failedTargets || t in but
  }

  ghost predicate AllFailed(l: Links, s: State, t: Target) {
    forall g :: Needs(l, g, t) ==> g in s.failed
  }

  /** The files that need a failed target have failed, but for targets whose removal is under way. */
  ghost predicate Followed(l: Links, s: State, pending: set<Target>) {
    forall t :: t in s.failedTargets ==> t in pending || AllFailed(l, s, t)
  }

  ghost predicate Ready(l: Links, s: State, busy: set<int>, pending: set<Target>, but: set<Target>) {
    Distinct(s) && Struck(s, busy) && EmptyFailed(s, but) && Followed(l, s, pending)
  }

  ghost predicate Consistent(l: Links, s: State) {
    Ready(l, s, {}, {}, {})
  }

  // ----- which files a failure takes along

  /** All providers of t are in the set, and it has some. */
  ghost predicate Stranded(s: State, t: Target, cap: iset<int>) {
    t in s.targets && s.targets[t] != [] && forall f :: f in s.targets[t] ==> f in cap
  }

  ghost predicate CapClosed(l: Links, s: State, cap: iset<int>) {
    forall t, g :: Stranded(s, t, cap) && Needs(l, g, t) ==> g in cap || g in s.failed
  }

  // ----- how the lists change

  /** Lists lose exactly the files that failed meanwhile; targets fail only on request or when emptied. */
  ghost predicate Evolved(s: State, t: State, asked: set<Target>) {
    && s.failed <= t.failed && s.failedTargets <= t.failedTargets
    && t.targets.Keys == s.targets.Keys
    && (forall x :: x in s.targets && x in t.targets ==> Thinned(s.targets[x], t.targets[x], s.failed, t.failed))
    && (forall x :: x in t.failedTargets ==>
       x in s.failedTargets || x in asked || (x in t.targets && t.targets[x] == []))
  }

  /** b lists those of a that did not fail between one set of failures and the next. */
  ghost predicate Thinned(a: seq<int>, b: seq<int>, before: set<int>, after: set<int>) {
    forall f :: f in b <==> f in a && (f in after ==> f in before)
  }

  lemma ThinnedEmpty(a: seq<int>, b: seq<int>, before: set<int>, after: set<int>)
    requires Thinned(a, b, before, after)
    ensures a == [] ==> b == []
  {
    if b != [] {
      var f := b[0];
      assert f in b;
      assert f in a;
    }
  }

  lemma ThinnedTrans(a: seq<int>, b: seq<int>, c: seq<int>, f0: set<int>, f1: set<int>, f2: set<int>)
    requires Thinned(a, b, f0, f1) && Thinned(b, c, f1, f2) && f0 <= f1 <= f2
    ensures Thinned(a, c, f0, f2)
  {
  }

  lemma EvolvedSelf(s: State, asked: set<Target>)
    ensures Evolved(s, s, asked)
  {
  }

  lemma StaysEmpty(s: State, t: State, asked: set<Target>, x: Target)
    requires Evolved(s, t, asked) && x in s.targets && s.targets[x] == []
    ensures x in t.targets && t.targets[x] == []
  {
    assert x in t.targets.Keys;
    ThinnedEmpty(s.targets[x], t.targets[x], s.failed, t.failed);
  }

  lemma EvolvedTrans(s: State, t: State, u: State, asked: set<Target>)
    requires Evolved(s, t, asked) && Evolved(t, u, asked)
    ensures Evolved(s, u, asked)
  {
    forall x | x in s.targets && x in u.targets ensures Thinned(s.targets[x], u.targets[x], s.failed, u.failed) {
      assert x in t.targets.Keys;
      ThinnedTrans(s.targets[x], t.targets[x], u.targets[x], s.failed, t.failed, u.failed);
    }
    forall x | x in u.failedTargets
      ensures x in s.failedTargets || x in asked || (x in u.targets && u.targets[x] == []) {
      if x in t.failedTargets && x in t.targets && t.targets[x] == [] {
        StaysEmpty(t, u, asked, x);
      }
    }
  }

  /** What was closed stays closed while only members of the set fail. */
  lemma CapStays(l: Links, s: State, t: State, asked: set<Target>, cap: iset<int>)
    requires CapClosed(l, s, cap) && Evolved(s, t, asked)
    requires forall f :: f in t.failed ==> f in s.failed || f in cap
    ensures CapClosed(l, t, cap)
  {
    forall x, g | Stranded(t, x, cap) && Needs(l, g, x) ensures g in cap || g in t.failed {
      assert x in s.targets.Keys;
      ThinnedEmpty(s.targets[x], t.targets[x], s.failed, t.failed);
      assert Thinned(s.targets[x], t.targets[x], s.failed, t.failed);
      assert Stranded(s, x, cap);
    }
  }

  /** The failure of the seeds reaches g in at most n rounds. */
  ghost predicate DoomedIn(l: Links, s: State, seeds: iset<int>, g: int, n: nat)
    decreases n, 0
  {
    || g in seeds
    || (n > 0 && DoomedIn(l, s, seeds, g, n - 1))
    || (n > 0 && g !in s.failed && exists t :: LostIn(l, s, seeds, t, n - 1) && Needs(l, g, t))
  }

  ghost predicate LostIn(l: Links, s: State, seeds: iset<int>, t: Target, n: nat)
    decreases n, 1
  {
    t in s.targets && s.targets[t] != [] && forall p :: p in s.targets[t] ==> DoomedIn(l, s, seeds, p, n)
  }

  ghost predicate IsDoomed(l: Links, s: State, seeds: iset<int>, g: int) {
    exists n: nat :: DoomedIn(l, s, seeds, g, n)
  }

  /**
   * The least set with the seeds and, for every target all of whose providers are in it, the files
   * that need that target.
   */
  ghost function Doomed(l: Links, s: State, seeds: iset<int>): iset<int> {
    iset g | IsDoomed(l, s, seeds, g)
  }

  lemma {:induction false} DoomedLonger(l: Links, s: State, seeds: iset<int>, g: int, n: nat, m: nat)
    requires DoomedIn(l, s, seeds, g, n) && n <= m
    ensures DoomedIn(l, s, seeds, g, m)
    decreases m
  {
    if n < m {
      DoomedLonger(l, s, seeds, g, n, m - 1);
    }
  }

  /** Finitely many doomed files are doomed within a common number of rounds. */
  lemma {:induction false} DoomedTogether(l: Links, s: State, seeds: iset<int>, ps: seq<int>) returns (n: nat)
    requires forall p :: p in ps ==> IsDoomed(l, s, seeds, p)
    ensures forall p :: p in ps ==> DoomedIn(l, s, seeds, p, n)
  {
    if ps == [] {
      n := 0;
    } else {
      var last := ps[|ps| - 1];
      var m := DoomedTogether(l, s, seeds, ps[..|ps| - 1]);
      assert last in ps;
      var k: nat :| DoomedIn(l, s, seeds, last, k);
      n := if m < k then k else m;
      forall p | p in ps ensures DoomedIn(l, s, seeds, p, n) {
        if p == last {
          DoomedLonger(l, s, seeds, p, k, n);
        } else {
          assert p in ps[..|ps| - 1];
          DoomedLonger(l, s, seeds, p, m, n);
        }
      }
    }
  }

  lemma DoomedClosed(l: Links, s: State, seeds: iset<int>)
    ensures CapClosed(l, s, Doomed(l, s, seeds))
    ensures forall f :: f in seeds ==> f in Doomed(l, s, seeds)
  {
    forall f | f in seeds ensures IsDoomed(l, s, seeds, f) {
      assert DoomedIn(l, s, seeds, f, 0);
    }
    forall t, g | Stranded(s, t, Doomed(l, s, seeds)) && Needs(l, g, t) && g !in s.failed
      ensures IsDoomed(l, s, seeds, g) {
      var n := DoomedTogether(l, s, seeds, s.targets[t]);
      assert LostIn(l, s, seeds, t, n);
      assert DoomedIn(l, s, seeds, g, n + 1);
    }
  }

  /** Once things are consistent again, every doomed file has failed. */
  lemma {:induction false} DoomedFail(l: Links, s: State, s': State, asked: set<Target>, seeds: iset<int>, g: int,
      n: nat)
    requires Consistent(l, s') && Evolved(s, s', asked) && DoomedIn(l, s, seeds, g, n)
    requires forall f :: f in seeds ==> f in s'.failed
    ensures g in s'.failed
    decreases n
  {
    if g in seeds {
    } else if DoomedIn(l, s, seeds, g, n - 1) {
      DoomedFail(l, s, s', asked, seeds, g, n - 1);
    } else {
      var t :| LostIn(l, s, seeds, t, n - 1) && Needs(l, g, t);
      forall p | p in s.targets[t] ensures p in s'.failed {
        DoomedFail(l, s, s', asked, seeds, p, n - 1);
      }
      assert t in s'.targets.Keys;
      LostList(l, s, s', asked, t);
      assert AllFailed(l, s', t);
    }
  }

  lemma LostList(l: Links, s: State, s': State, asked: set<Target>, t: Target)
    requires Consistent(l, s') && Evolved(s, s', asked) && t in s.targets && t in s'.targets
    requires forall p :: p in s.targets[t] ==> p in s'.failed
    ensures t in s'.failedTargets
  {
    assert Thinned(s.targets[t], s'.targets[t], s.failed, s'.failed);
    if s'.targets[t] != [] {
      FirstLeft(s.targets[t], s'.targets[t], s.failed, s'.failed);
    }
  }

  lemma FirstLeft(a: seq<int>, b: seq<int>, before: set<int>, after: set<int>)
    requires Thinned(a, b, before, after) && b != [] && forall p :: p in a ==> p in after
    ensures exists p :: p in b && p in after
  {
    var p := b[0];
    assert p in b;
    assert p in a;
  }

  // ----- striking one file from one list

  function RemoveFirst(s: seq<int>, x: int): seq<int> {
    if s == [] then [] else if s[0] == x then s[1..] else [s[0]] + RemoveFirst(s[1..], x)
  }

  lemma {:induction false} RemoveFirstIs(s: seq<int>, x: int)
    requires NoRepeats(s)
    ensures NoRepeats(RemoveFirst(s, x))
    ensures forall y :: y in RemoveFirst(s, x) <==> y in s && y != x
  {
    if s != [] {
      var rest := s[1..];
      RemoveFirstIs(rest, x);
      if s[0] != x {
        var r := RemoveFirst(rest, x);
        forall y ensures y in [s[0]] + r <==> y in s && y != x {
          assert y in s <==> y == s[0] || y in rest;
        }
        assert s[0] !in r;
      } else {
        forall y ensures y in rest <==> y in s && y != x {
          assert y in s <==> y == s[0] || y in rest;
        }
      }
    }
  }

  /** The state while the failed file f is being struck: the targets still to be scanned may list it. */
  ghost predicate Striking(l: Links, s0: State, s: State, f: int, todo: set<Target>, busy: set<int>,
      pending: set<Target>, but: set<Target>) {
    && f in s.failed && f !in s0.failed
    && s0.failed <= s.failed && s0.failedTargets <= s.failedTargets && s.targets.Keys == s0.targets.Keys
    && (forall x :: x in s.targets && x in s0.targets ==>
       ThinnedBut(s0.targets[x], s.targets[x], s0.failed, s.failed, f, x in todo))
    && (forall x :: x in s.failedTargets ==> x in s0.failedTargets || (x in s.targets && s.targets[x] == []))
    && Ready(l, s, busy + {f}, pending, but)
  }

  ghost predicate ThinnedBut(a: seq<int>, b: seq<int>, before: set<int>, after: set<int>, f: int, kept: bool) {
    forall x :: x in b <==> x in a && (if x == f then kept else x in after ==> x in before)
  }

  lemma StartStriking(l: Links, s0: State, f: int, busy: set<int>, pending: set<Target>)
    requires Ready(l, s0, busy, pending, {}) && f !in s0.failed
    ensures Striking(l, s0, s0.(failed := s0.failed + {f}), f, s0.targets.Keys, busy, pending, {})
  {
  }

  lemma SkipOne(l: Links, s0: State, s: State, f: int, todo: set<Target>, t: Target, busy: set<int>,
      pending: set<Target>)
    requires Striking(l, s0, s, f, todo, busy, pending, {}) && t in s.targets && f !in s.targets[t]
    ensures Striking(l, s0, s, f, todo - {t}, busy, pending, {})
  {
    hide Ready;
    forall x | x in s.targets && x in s0.targets
      ensures ThinnedBut(s0.targets[x], s.targets[x], s0.failed, s.failed, f, x in todo - {t})
    {
      assert ThinnedBut(s0.targets[x], s.targets[x], s0.failed, s.failed, f, x in todo);
    }
  }

  lemma StrikeOne(l: Links, s0: State, s: State, y: State, f: int, todo: set<Target>, t: Target, busy: set<int>,
      pending: set<Target>)
    requires Striking(l, s0, s, f, todo, busy, pending, {}) && t in s.targets
    requires y == s.(targets := s.targets[t := RemoveFirst(s.targets[t], f)])
    ensures Striking(l, s0, y, f, todo - {t}, busy, pending, if y.targets[t] == [] then {t} else {})
  {
    hide RemoveFirst;
    var list := s.targets[t];
    RemoveFirstIs(list, f);
    assert y.targets.Keys == s.targets.Keys;
    StruckReady(l, s, y, f, t, busy + {f}, pending);
    hide Ready;
    forall x | x in y.targets && x in s0.targets
      ensures ThinnedBut(s0.targets[x], y.targets[x], s0.failed, y.failed, f, x in todo - {t})
    {
      assert ThinnedBut(s0.targets[x], s.targets[x], s0.failed, s.failed, f, x in todo);
    }
    RemoveFromNothing(f);
  }

  lemma RemoveFromNothing(f: int)
    ensures RemoveFirst([], f) == []
  {
  }

  lemma StruckReady(l: Links, s: State, y: State, f: int, t: Target, busy: set<int>, pending: set<Target>)
    requires Ready(l, s, busy, pending, {}) && t in s.targets
    requires y == s.(targets := s.targets[t := RemoveFirst(s.targets[t], f)])
    ensures Ready(l, y, busy, pending, if y.targets[t] == [] then {t} else {})
  {
    hide RemoveFirst;
    RemoveFirstIs(s.targets[t], f);
  }

  lemma AfterRemoval(l: Links, s0: State, y: State, z: State, f: int, todo: set<Target>, t: Target, busy: set<int>,
      pending: set<Target>)
    requires Striking(l, s0, y, f, todo, busy, pending, {t}) && t in y.targets && y.targets[t] == []
    requires Ready(l, z, busy + {f}, pending, {}) && Evolved(y, z, {t})
    ensures Striking(l, s0, z, f, todo, busy, pending, {})
  {
    hide Ready;
    forall x | x in z.targets && x in s0.targets
      ensures ThinnedBut(s0.targets[x], z.targets[x], s0.failed, z.failed, f, x in todo)
    {
      assert x in y.targets.Keys;
      assert ThinnedBut(s0.targets[x], y.targets[x], s0.failed, y.failed, f, x in todo);
      assert Thinned(y.targets[x], z.targets[x], y.failed, z.failed);
      ThinnedOn(s0.targets[x], y.targets[x], z.targets[x], s0.failed, y.failed, z.failed, f, x in todo);
    }
    StaysEmpty(y, z, {t}, t);
    forall x | x in z.failedTargets ensures x in s0.failedTargets || (x in z.targets && z.targets[x] == []) {
      if x in y.failedTargets && x in y.targets && y.targets[x] == [] {
        StaysEmpty(y, z, {t}, x);
      }
    }
  }

  lemma ThinnedOn(a: seq<int>, b: seq<int>, c: seq<int>, f0: set<int>, f1: set<int>, f2: set<int>, f: int, kept: bool)
    requires ThinnedBut(a, b, f0, f1, f, kept) && Thinned(b, c, f1, f2) && f0 <= f1 <= f2 && f in f1
    ensures ThinnedBut(a, c, f0, f2, f, kept)
  {
  }

  lemma FinishStriking(l: Links, s0: State, s: State, f: int, busy: set<int>, pending: set<Target>)
    requires Striking(l, s0, s, f, {}, busy, pending, {})
    ensures Ready(l, s, busy, pending, {}) && Evolved(s0, s, {})
  {
    assert Struck(s, busy + {f});
    forall x | x in s.targets ensures f !in s.targets[x] && x in s0.targets {
      assert x in s0.targets.Keys;
      assert ThinnedBut(s0.targets[x], s.targets[x], s0.failed, s.failed, f, false);
    }
    forall x | x in s.targets && x in s0.targets ensures Thinned(s0.targets[x], s.targets[x], s0.failed, s.failed) {
      assert ThinnedBut(s0.targets[x], s.targets[x], s0.failed, s.failed, f, false);
    }
  }

  // ----- a target is removed

  ghost predicate Universe(l: Links, u: set<int>) {
    forall g, t :: Needs(l, g, t) ==> g in u
  }

  ghost predicate Within(s: State, t: State, cap: iset<int>) {
    forall f :: f in t.failed ==> f in s.failed || f in cap
  }

  ghost predicate NeedersIn(l: Links, s: State, t: Target, cap: iset<int>) {
    forall g :: Needs(l, g, t) ==> g in cap || g in s.failed
  }

  lemma Removing(l: Links, s: State, t: Target, busy: set<int>, pending: set<Target>)
    requires Ready(l, s, busy, pending, {t})
    ensures Ready(l, s.(failedTargets := s.failedTargets + {t}), busy, pending + {t}, {})
  {
  }

  lemma Removed(l: Links, s: State, t: Target, busy: set<int>, pending: set<Target>)
    requires Ready(l, s, busy, pending + {t}, {}) && AllFailed(l, s, t)
    ensures Ready(l, s, busy, pending, {})
  {
  }

  lemma Fewer(u: set<int>, a: set<int>, b: set<int>)
    requires a <= b
    ensures |u - b| <= |u - a|
  {
    SubsetCard(u - b, u - a);
  }

  lemma OneFewer(u: set<int>, a: set<int>, f: int)
    requires f in u && f !in a
    ensures |u - (a + {f})| < |u - a|
  {
    assert u - (a + {f}) == (u - a) - {f};
  }

  lemma ListedAtStart(l: Links, s0: State, s: State, f: int, todo: set<Target>, t: Target, busy: set<int>,
      pending: set<Target>)
    requires Striking(l, s0, s, f, todo, busy, pending, {}) && t in s.targets && f in s.targets[t]
    ensures t in s0.targets && f in s0.targets[t]
  {
    assert t in s0.targets.Keys;
    assert ThinnedBut(s0.targets[t], s.targets[t], s0.failed, s.failed, f, t in todo);
  }

  /** What is lost from a list meanwhile is in the set; so if a list is lost, it was within the set. */
  lemma LostWithin(l: Links, s0: State, y: State, f: int, todo: set<Target>, t: Target, busy: set<int>,
      pending: set<Target>,
                   but: set<Target>, cap: iset<int>)
    requires Striking(l, s0, y, f, todo, busy, pending, but) && t in y.targets && t in s0.targets && f in cap
      && Within(s0, y, cap)
    ensures forall p :: p in s0.targets[t] ==> p in y.targets[t] || p in cap
  {
    assert ThinnedBut(s0.targets[t], y.targets[t], s0.failed, y.failed, f, t in todo);
  }

  lemma StrikingClosed(l: Links, s0: State, y: State, f: int, todo: set<Target>, busy: set<int>, pending: set<Target>,
      but: set<Target>,
                       cap: iset<int>)
    requires Striking(l, s0, y, f, todo, busy, pending, but) && f in cap && Within(s0, y, cap) && CapClosed(l, s0, cap)
    ensures CapClosed(l, y, cap)
  {
    hide Ready;
    forall x, g | Stranded(y, x, cap) && Needs(l, g, x) ensures g in cap || g in y.failed {
      assert x in s0.targets.Keys;
      LostWithin(l, s0, y, f, todo, x, busy, pending, but, cap);
      var p := y.targets[x][0];
      assert p in y.targets[x];
      assert ThinnedBut(s0.targets[x], y.targets[x], s0.failed, y.failed, f, x in todo);
      assert Stranded(s0, x, cap);
    }
  }

  lemma Emptied(l: Links, s0: State, y: State, f: int, todo: set<Target>, t: Target, busy: set<int>,
      pending: set<Target>, u: set<int>,
                cap: iset<int>)
    requires Striking(l, s0, y, f, todo, busy, pending, {t}) && t in y.targets && y.targets[t] == [] && t in s0.targets
    requires f in s0.targets[t] && f in cap && f in u && Within(s0, y, cap) && CapClosed(l, s0, cap)
    ensures CapClosed(l, y, cap) && NeedersIn(l, y, t, cap) && Ready(l, y, busy + {f}, pending, {t})
    ensures |u - y.failed| < |u - s0.failed|
  {
    OneFewer(u, s0.failed, f);
    Fewer(u, s0.failed + {f}, y.failed);
    StrikingClosed(l, s0, y, f, todo, busy, pending, {t}, cap);
    LostWithin(l, s0, y, f, todo, t, busy, pending, {t}, cap);
    assert Stranded(s0, t, cap);
  }

  lemma StrikingFacts(l: Links, s0: State, s: State, f: int, todo: set<Target>, busy: set<int>, pending: set<Target>,
      u: set<int>)
    requires Striking(l, s0, s, f, todo, busy, pending, {})
    ensures s.targets.Keys == s0.targets.Keys && f in s.failed
    ensures f in u ==> |u - s.failed| < |u - s0.failed|
  {
    if f in u {
      OneFewer(u, s0.failed, f);
      Fewer(u, s0.failed + {f}, s.failed);
    }
  }

  class TaskData {
    var depids: map<int, set<Target>>
    var tasksFnid: seq<int>
    var tasksIdepends: seq<set<Target>>
    var targets: map<Target, seq<int>>
    var failedTargets: seq<Target>
    var failedFnids: seq<int>

    ghost function L(): Links
      reads this
    {
      Links(depids, tasksFnid, tasksIdepends)
    }

    ghost function Now(): State
      reads this
    {
      State((set f | f in failedFnids), targets, (set t | t in failedTargets))
    }

    /** Marks a file as failed and strikes it from the lists of providers. */
    method FailFnid(fnid: int, ghost u: set<int>, ghost busy: set<int>, ghost pending: set<Target>,
        ghost cap: iset<int>)
      requires WellFormed(L()) && Universe(L(), u) && fnid in u && (fnid in cap || fnid in Now().failed)
      requires Ready(L(), Now(), busy, pending, {}) && CapClosed(L(), Now(), cap)
      modifies `targets, `failedTargets, `failedFnids
      ensures Ready(L(), Now(), busy, pending, {}) && Evolved(old(Now()), Now(), {})
      ensures fnid in Now().failed && Within(old(Now()), Now(), cap)
      decreases |u - Now().failed|, 0
    {
      hide Ready;
      hide Evolved;
      hide CapClosed;
      hide Universe;
      hide Striking;
      hide RemoveFirst;
      ghost var s0 := Now();
      if fnid in failedFnids {
        EvolvedSelf(s0, {});
        return;
      }
      failedFnids := failedFnids + [fnid];
      assert Now() == s0.(failed := s0.failed + {fnid});
      OneFewer(u, s0.failed, fnid);
      StartStriking(L(), s0, fnid, busy, pending);
      var todo := targets.Keys;
      while todo != {}
        invariant todo <= s0.targets.Keys && depids == old(depids) && tasksFnid == old(tasksFnid) && tasksIdepends ==
            old(tasksIdepends)
        invariant Striking(L(), s0, Now(), fnid, todo, busy, pending, {})
        invariant Within(s0, Now(), cap)
        decreases |todo|
      {
        var target := Pick(todo);
        StrikingFacts(L(), s0, Now(), fnid, todo, busy, pending, u);
        StrikeFrom(target, fnid, s0, todo, u, busy, pending, cap);
        todo := todo - {target};
      }
      StrikingFacts(L(), s0, Now(), fnid, {}, busy, pending, u);
      FinishStriking(L(), s0, Now(), fnid, busy, pending);
    }

    /** Strikes a failed file from the providers of one target, which fails if that was the last. */
    method StrikeFrom(target: Target, fnid: int, ghost s0: State, ghost todo: set<Target>, ghost u: set<int>,
        ghost busy: set<int>,
                      ghost pending: set<Target>, ghost cap: iset<int>)
      requires WellFormed(L()) && Universe(L(), u) && fnid in u && fnid in cap && target in targets
      requires Striking(L(), s0, Now(), fnid, todo, busy, pending, {}) && CapClosed(L(), s0, cap)
        && Within(s0, Now(), cap)
      modifies `targets, `failedTargets, `failedFnids
      ensures Striking(L(), s0, Now(), fnid, todo - {target}, busy, pending, {}) && Within(s0, Now(), cap)
      decreases |u - Now().failed|, 3
    {
      hide Ready;
      hide Evolved;
      hide CapClosed;
      hide Universe;
      hide Striking;
      hide RemoveFirst;
      hide Needs;
      hide NeedersIn;
      ghost var s := Now();
      if fnid !in targets[target] {
        SkipOne(L(), s0, s, fnid, todo, target, busy, pending);
        return;
      }
      ListedAtStart(L(), s0, s, fnid, todo, target, busy, pending);
      targets := targets[target := RemoveFirst(targets[target], fnid)];
      ghost var y := Now();
      assert y == s.(targets := s.targets[target := RemoveFirst(s.targets[target], fnid)]);
      StrikeOne(L(), s0, s, y, fnid, todo, target, busy, pending);
      if |targets[target]| == 0 {
        Emptied(L(), s0, y, fnid, todo - {target}, target, busy, pending, u, cap);
        RemoveTarget(target, u, busy + {fnid}, pending, cap);
        AfterRemoval(L(), s0, y, Now(), fnid, todo - {target}, target, busy, pending);
      }
    }

    /** Marks a target as failed, and every file that needs it. */
    method RemoveTarget(target: Target, ghost u: set<int>, ghost busy: set<int>, ghost pending: set<Target>,
        ghost cap: iset<int>)
      requires WellFormed(L()) && Universe(L(), u)
      requires Ready(L(), Now(), busy, pending, {target}) && CapClosed(L(), Now(), cap)
        && NeedersIn(L(), Now(), target, cap)
      modifies `targets, `failedTargets, `failedFnids
      ensures Ready(L(), Now(), busy, pending, {}) && Evolved(old(Now()), Now(), {target})
      ensures target in Now().failedTargets && Within(old(Now()), Now(), cap)
      decreases |u - Now().failed|, 2
    {
      hide Ready;
      hide Evolved;
      hide CapClosed;
      hide Universe;
      hide Within;
      hide Needs;
      hide NeedersIn;
      hide Underway;
      ghost var s0 := Now();
      failedTargets := failedTargets + [target];
      ghost var s1 := Now();
      assert s1 == s0.(failedTargets := s0.failedTargets + {target});
      RemovingEvolves(L(), s0, target, busy, pending, cap);
      FailDependees(target, s0, u, busy, pending, cap);
      UnderwayFacts(L(), s0, Now(), target, busy, pending, cap);
      Fewer(u, s0.failed, Now().failed);
      FailTaskFiles(target, s0, u, busy, pending, cap);
      NeedersFailed(L(), Now(), target);
      UnderwayFacts(L(), s0, Now(), target, busy, pending, cap);
      Removed(L(), Now(), target, busy, pending);
    }

    /** Fails the files that depend on the target themselves. */
    method FailDependees(target: Target, ghost s0: State, ghost u: set<int>, ghost busy: set<int>,
        ghost pending: set<Target>,
                         ghost cap: iset<int>)
      requires WellFormed(L()) && Universe(L(), u) && Underway(L(), s0, Now(), target, busy, pending, cap)
      modifies `targets, `failedTargets, `failedFnids
      ensures Underway(L(), s0, Now(), target, busy, pending, cap)
      ensures DependeesFailed(L(), Now(), target)
      decreases |u - Now().failed|, 1
    {
      hide Ready;
      hide Evolved;
      hide CapClosed;
      hide Universe;
      hide Within;
      hide Needs;
      hide NeedersIn;
      hide Underway;
      ghost var s1 := Now();
      var dependees := set g | g in depids && target in depids[g];
      var todo := dependees;
      while todo != {}
        invariant todo <= dependees && depids == old(depids) && tasksFnid == old(tasksFnid) && tasksIdepends ==
            old(tasksIdepends)
        invariant Underway(L(), s0, Now(), target, busy, pending, cap) && s1.failed <= Now().failed
        invariant dependees <= todo + Now().failed
        decreases |todo|
      {
        var fnid := Pick(todo);
        ghost var s := Now();
        IsDependee(L(), fnid, target);
        Needer(L(), u, s0, s, target, fnid, cap, busy, pending);
        Fewer(u, s1.failed, s.failed);
        FailFnid(fnid, u, busy, pending + {target}, cap);
        StillUnderway(L(), s0, s, Now(), target, busy, pending, cap);
        todo := todo - {fnid};
      }
    }

    /** Fails the files of the tasks that depend on a build target. */
    method FailTaskFiles(target: Target, ghost s0: State, ghost u: set<int>, ghost busy: set<int>,
        ghost pending: set<Target>,
                         ghost cap: iset<int>)
      requires WellFormed(L()) && Universe(L(), u) && Underway(L(), s0, Now(), target, busy, pending, cap)
      requires DependeesFailed(L(), Now(), target)
      modifies `targets, `failedTargets, `failedFnids
      ensures Underway(L(), s0, Now(), target, busy, pending, cap)
      ensures DependeesFailed(L(), Now(), target) && TaskFilesFailed(L(), Now(), target, |tasksIdepends|)
      decreases |u - Now().failed|, 1
    {
      hide Ready;
      hide Evolved;
      hide CapClosed;
      hide Universe;
      hide Within;
      hide Needs;
      hide NeedersIn;
      hide Underway;
      ghost var s1 := Now();
      if target.Run? {
        NoTaskNeeds(L(), Now(), target);
        return;
      }
      var taskid := 0;
      while taskid < |tasksIdepends|
        invariant 0 <= taskid <= |tasksIdepends| && depids == old(depids) && tasksFnid == old(tasksFnid)
            && tasksIdepends == old(tasksIdepends)
        invariant Underway(L(), s0, Now(), target, busy, pending, cap) && s1.failed <= Now().failed
        invariant TaskFilesFailed(L(), Now(), target, taskid)
      {
        if target in tasksIdepends[taskid] {
          ghost var s := Now();
          IsTaskNeed(L(), taskid, target);
          Needer(L(), u, s0, s, target, tasksFnid[taskid], cap, busy, pending);
          Fewer(u, s1.failed, s.failed);
          FailFnid(tasksFnid[taskid], u, busy, pending + {target}, cap);
          StillUnderway(L(), s0, s, Now(), target, busy, pending, cap);
        }
        taskid := taskid + 1;
      }
    }

    /**
     * A file fails in a consistent state: afterwards the failed files are those
     * that had failed and the ones this failure dooms, and no others.
     */
    method Fail(fnid: int, ghost u: set<int>)
      requires WellFormed(L()) && Universe(L(), u) && fnid in u && Consistent(L(), Now())
      modifies `targets, `failedTargets, `failedFnids
      ensures Consistent(L(), Now()) && Evolved(old(Now()), Now(), {})
      ensures forall g :: g in Now().failed <==> g in old(Now()).failed || g in Doomed(L(), old(Now()), iset{fnid})
    {
      ghost var s, seeds := Now(), iset{fnid};
      DoomedClosed(L(), s, seeds);
      hide Ready;
      hide Evolved;
      FailFnid(fnid, u, {}, {}, Doomed(L(), s, seeds));
      ExactlyDoomed(L(), s, Now(), {}, seeds);
    }

    /** A target turns out to have no provider: likewise, starting from the files that need it. */
    method FailTarget(target: Target, ghost u: set<int>)
      requires WellFormed(L()) && Universe(L(), u) && Consistent(L(), Now())
      modifies `targets, `failedTargets, `failedFnids
      ensures Consistent(L(), Now()) && Evolved(old(Now()), Now(), {target}) && target in failedTargets
      ensures forall g ::
        g in Now().failed <==> g in old(Now()).failed || g in Doomed(L(), old(Now()), Needers(L(), target))
    {
      ghost var s, seeds := Now(), Needers(L(), target);
      DoomedClosed(L(), s, seeds);
      ReadyBut(L(), s, target);
      hide Ready;
      hide Evolved;
      RemoveTarget(target, u, {}, {}, Doomed(L(), s, seeds));
      NeedersHaveFailed(L(), Now(), target);
      ExactlyDoomed(L(), s, Now(), {target}, seeds);
    }
  }

  ghost function Needers(l: Links, t: Target): iset<int> {
    iset g | Needs(l, g, t)
  }

  lemma ReadyBut(l: Links, s: State, t: Target)
    requires Consistent(l, s)
    ensures Ready(l, s, {}, {}, {t})
  {
  }

  lemma NeedersHaveFailed(l: Links, s: State, t: Target)
    requires Consistent(l, s) && t in s.failedTargets
    ensures forall g :: g in Needers(l, t) ==> g in s.failed
  {
    assert AllFailed(l, s, t);
  }

  lemma ExactlyDoomed(l: Links, s: State, s': State, asked: set<Target>, seeds: iset<int>)
    requires Consistent(l, s') && Evolved(s, s', asked) && Within(s, s', Doomed(l, s, seeds))
    requires forall f :: f in seeds ==> f in s'.failed
    ensures forall g :: g in s'.failed <==> g in s.failed || g in Doomed(l, s, seeds)
  {
    forall g | IsDoomed(l, s, seeds, g) ensures g in s'.failed {
      var n: nat :| DoomedIn(l, s, seeds, g, n);
      DoomedFail(l, s, s', asked, seeds, g, n);
    }
    assert s.failed <= s'.failed;
  }

  lemma IsDependee(l: Links, g: int, t: Target)
    requires g in l.depids && t in l.depids[g]
    ensures Needs(l, g, t)
  {
  }

  lemma IsTaskNeed(l: Links, k: int, t: Target)
    requires 0 <= k < |l.tasksFnid| && k < |l.tasksIdepends| && t in l.tasksIdepends[k]
    ensures Needs(l, l.tasksFnid[k], t)
  {
  }

  /** Target t has been marked and the files that need it are being failed. */
  ghost predicate Underway(l: Links, s0: State, s: State, t: Target, busy: set<int>, pending: set<Target>,
      cap: iset<int>) {
    && Ready(l, s, busy, pending + {t}, {})
    && Evolved(s0, s, {t}) && t in s.failedTargets && Within(s0, s, cap)
    && CapClosed(l, s, cap) && NeedersIn(l, s, t, cap)
  }

  lemma RemovingEvolves(l: Links, s0: State, t: Target, busy: set<int>, pending: set<Target>, cap: iset<int>)
    requires Ready(l, s0, busy, pending, {t}) && CapClosed(l, s0, cap) && NeedersIn(l, s0, t, cap)
    ensures Underway(l, s0, s0.(failedTargets := s0.failedTargets + {t}), t, busy, pending, cap)
  {
    var s := s0.(failedTargets := s0.failedTargets + {t});
    Removing(l, s0, t, busy, pending);
    hide Ready;
    CapStays(l, s0, s, {t}, cap);
  }

  lemma Needer(l: Links, u: set<int>, s0: State, s: State, t: Target, g: int, cap: iset<int>, busy: set<int>,
      pending: set<Target>)
    requires Underway(l, s0, s, t, busy, pending, cap) && Needs(l, g, t) && Universe(l, u)
    ensures g in u && |u - s.failed| <= |u - s0.failed|
    ensures g in cap || g in s.failed
    ensures Ready(l, s, busy, pending + {t}, {}) && CapClosed(l, s, cap)
  {
    Fewer(u, s0.failed, s.failed);
  }

  lemma UnderwayFacts(l: Links, s0: State, s: State, t: Target, busy: set<int>, pending: set<Target>, cap: iset<int>)
    requires Underway(l, s0, s, t, busy, pending, cap)
    ensures Ready(l, s, busy, pending + {t}, {}) && Evolved(s0, s, {t}) && t in s.failedTargets && Within(s0, s, cap)
    ensures s0.failed <= s.failed
  {
  }

  lemma StillUnderway(l: Links, s0: State, s: State, s': State, t: Target, busy: set<int>, pending: set<Target>,
      cap: iset<int>)
    requires Underway(l, s0, s, t, busy, pending, cap)
    requires Ready(l, s', busy, pending + {t}, {}) && Evolved(s, s', {}) && Within(s, s', cap)
    ensures Underway(l, s0, s', t, busy, pending, cap) && s.failed <= s'.failed
  {
    hide Ready;
    assert Evolved(s, s', {t});
    EvolvedTrans(s0, s, s', {t});
    CapStays(l, s, s', {t}, cap);
  }

  ghost predicate DependeesFailed(l: Links, s: State, t: Target) {
    forall g :: g in l.depids && t in l.depids[g] ==> g in s.failed
  }

  ghost predicate TaskFilesFailed(l: Links, s: State, t: Target, n: int)
    requires WellFormed(l)
  {
    forall k :: 0 <= k < n && k < |l.tasksIdepends| && t in l.tasksIdepends[k] ==> l.tasksFnid[k] in s.failed
  }

  lemma NoTaskNeeds(l: Links, s: State, t: Target)
    requires WellFormed(l) && t.Run?
    ensures TaskFilesFailed(l, s, t, |l.tasksIdepends|)
  {
    forall k | 0 <= k < |l.tasksIdepends| ensures t !in l.tasksIdepends[k] {
      assert OnlyBuild(l.tasksIdepends[k]);
    }
  }

  lemma NeedersFailed(l: Links, s: State, t: Target)
    requires WellFormed(l) && DependeesFailed(l, s, t) && TaskFilesFailed(l, s, t, |l.tasksIdepends|)
    ensures AllFailed(l, s, t)
  {
  }
}
