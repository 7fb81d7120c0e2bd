/**
 * Task signatures: the variables a task depends on, and the hashes of tasks
 * computed in dependency order.
 */
module Signatures {
  import opened Finite
  import opened Paths

  // ----- the variables a task depends on

  /** Variables are known by name; nothing but equality of names matters. */
  type Deps<!V> = map<V, set<V>>

  /** The graph that is followed from a variable: whitelisted variables are not followed. */
  ghost function Follow<V(!new)>(deps: Deps<V>, whitelist: set<V>): V -> set<V> {
    x => if x in whitelist || x !in deps then {} else deps[x]
  }

  /** Every dependency has dependencies on record. */
  ghost predicate Closed<V(!new)>(deps: Deps<V>) {
    forall x, y :: x in deps && y in deps[x] ==> y in deps
  }

  /** v is a dependency of the task, directly or through variables that are not whitelisted. */
  ghost predicate Needed<V(!new)>(deps: Deps<V>, whitelist: set<V>, task: V, v: V)
    requires task in deps
  {
    exists d :: d in deps[task] && Reaches(Follow(deps, whitelist), d, v)
  }

  /** The dependencies of a task that are not whitelisted, found in waves. */
  method BaseDependencies<V(==, !new)>(deps: Deps<V>, whitelist: set<V>, task: V) returns (all: set<V>)
    requires Closed(deps) && task in deps
    ensures forall v :: v in all <==> v !in whitelist && Needed(deps, whitelist, task, v)
  {
    var newdeps := deps[task];
    var seen := {};
    StartWaves(deps, whitelist, task);
    while newdeps != {}
      invariant Waves(deps, whitelist, task, seen, newdeps)
      decreases |deps.Keys - seen|
    {
      ghost var before := seen;
      var nextdeps := newdeps;
      seen := seen + nextdeps;
      newdeps := NextWave(deps, whitelist, nextdeps);
      newdeps := newdeps - seen;
      WaveStep(deps, whitelist, task, before, nextdeps, newdeps);
    }
    AllSeen(deps, whitelist, task, seen);
    all := seen - whitelist;
  }

  /** All that the members of a set lead to. */
  ghost function Union<V(!new)>(f: V -> set<V>, s: set<V>): set<V> {
    set x, v | x in s && v in f(x) :: v
  }

  lemma UnionOne<V(!new)>(f: V -> set<V>, s: set<V>, x: V)
    ensures Union(f, s + {x}) == Union(f, s) + f(x)
  {
  }

  lemma UnionNone<V(!new)>(f: V -> set<V>)
    ensures Union(f, {}) == {}
  {
  }

  method NextWave<V(==, !new)>(deps: Deps<V>, whitelist: set<V>, nextdeps: set<V>) returns (newdeps: set<V>)
    requires nextdeps <= deps.Keys
    ensures newdeps == Union(Follow(deps, whitelist), nextdeps)
  {
    newdeps := {};
    UnionNone(Follow(deps, whitelist));
    assert nextdeps - nextdeps == {};
    hide Union;
    var todo := nextdeps;
    while todo != {}
      invariant todo <= nextdeps
      invariant newdeps == Union(Follow(deps, whitelist), nextdeps - todo)
      decreases |todo|
    {
      var dep := Pick(todo);
      UnionOne(Follow(deps, whitelist), nextdeps - todo, dep);
      TakeOut(nextdeps, todo, dep);
      todo := todo - {dep};
      if dep !in whitelist {
        newdeps := newdeps + deps[dep];
      }
    }
    MinusNothing(nextdeps);
  }

  /** What has been seen and what comes next are needed; and nothing followed from what has been seen is missed. */
  ghost predicate Waves<V(!new)>(deps: Deps<V>, whitelist: set<V>, task: V, seen: set<V>, newdeps: set<V>)
    requires task in deps
  {
    && seen + newdeps <= deps.Keys && seen !! newdeps && deps[task] <= seen + newdeps
    && (forall v :: v in seen + newdeps ==> Needed(deps, whitelist, task, v))
    && (forall x, v :: x in seen && v in Follow(deps, whitelist)(x) ==> v in seen + newdeps)
  }

  lemma StartWaves<V(!new)>(deps: Deps<V>, whitelist: set<V>, task: V)
    requires Closed(deps) && task in deps
    ensures Waves(deps, whitelist, task, {}, deps[task])
  {
    forall v | v in deps[task] ensures Needed(deps, whitelist, task, v) {
      ReachesSelf(Follow(deps, whitelist), v);
    }
  }

  lemma FollowNeeded<V(!new)>(deps: Deps<V>, whitelist: set<V>, task: V, x: V, v: V)
    requires task in deps && Needed(deps, whitelist, task, x) && v in Follow(deps, whitelist)(x)
    ensures Needed(deps, whitelist, task, v)
  {
    var d :| d in deps[task] && Reaches(Follow(deps, whitelist), d, x);
    ReachesEdge(Follow(deps, whitelist), x, v);
    ReachesTrans(Follow(deps, whitelist), d, x, v);
  }

  lemma WaveStep<V(!new)>(deps: Deps<V>, whitelist: set<V>, task: V, seen: set<V>, nextdeps: set<V>, newdeps: set<V>)
    requires Closed(deps) && task in deps && Waves(deps, whitelist, task, seen, nextdeps) && nextdeps != {}
    requires newdeps == Union(Follow(deps, whitelist), nextdeps) - (seen + nextdeps)
    ensures Waves(deps, whitelist, task, seen + nextdeps, newdeps)
    ensures |deps.Keys - (seen + nextdeps)| < |deps.Keys - seen|
  {
    hide Needed;
    hide Closed;
    hide Follow;
    hide Union;
    WaveNeeded(deps, whitelist, task, seen, nextdeps, newdeps);
    Shrinks(deps.Keys, seen, nextdeps);
    WaveFollowed(deps, whitelist, task, seen, nextdeps, newdeps);
  }

  lemma WaveFollowed<V(!new)>(deps: Deps<V>, whitelist: set<V>, task: V, seen: set<V>, nextdeps: set<V>,
      newdeps: set<V>)
    requires task in deps && Waves(deps, whitelist, task, seen, nextdeps)
    requires newdeps == Union(Follow(deps, whitelist), nextdeps) - (seen + nextdeps)
    ensures forall x, v :: x in seen + nextdeps && v in Follow(deps, whitelist)(x) ==> v in seen + nextdeps + newdeps
  {
    hide Needed;
    hide Follow;
    forall x, v | x in seen + nextdeps && v in Follow(deps, whitelist)(x) ensures v in seen + nextdeps + newdeps {
      if x in nextdeps {
        assert v in Union(Follow(deps, whitelist), nextdeps);
      }
    }
  }

  lemma WaveNeeded<V(!new)>(deps: Deps<V>, whitelist: set<V>, task: V, seen: set<V>, nextdeps: set<V>, newdeps: set<V>)
    requires Closed(deps) && task in deps && Waves(deps, whitelist, task, seen, nextdeps)
    requires newdeps <= Union(Follow(deps, whitelist), nextdeps)
    ensures forall v :: v in newdeps ==> Needed(deps, whitelist, task, v) && v in deps
  {
    hide Needed;
    forall v | v in newdeps ensures Needed(deps, whitelist, task, v) && v in deps {
      var x :| x in nextdeps && v in Follow(deps, whitelist)(x);
      assert x in seen + nextdeps;
      FollowNeeded(deps, whitelist, task, x, v);
    }
  }

  lemma Shrinks<T>(u: set<T>, seen: set<T>, more: set<T>)
    requires more != {} && more <= u && seen !! more
    ensures |u - (seen + more)| < |u - seen|
  {
    var y := AnyOf(more);
    SubsetCard(u - (seen + more), u - seen - {y});
  }

  lemma AllSeen<V(!new)>(deps: Deps<V>, whitelist: set<V>, task: V, seen: set<V>)
    requires task in deps && Waves(deps, whitelist, task, seen, {})
    ensures forall v :: v in seen <==> Needed(deps, whitelist, task, v)
  {
    MinusAndPlusNothing(seen);
    forall v | Needed(deps, whitelist, task, v) ensures v in seen {
      var d :| d in deps[task] && Reaches(Follow(deps, whitelist), d, v);
      StaysSeen(Follow(deps, whitelist), seen, d, v);
    }
  }

  lemma MinusAndPlusNothing<V>(seen: set<V>)
    ensures seen + {} == seen
  {
  }

  lemma StaysSeen<V(!new)>(f: V -> set<V>, seen: set<V>, d: V, v: V)
    requires d in seen && Reaches(f, d, v) && forall x, y :: x in seen && y in f(x) ==> y in seen
    ensures v in seen
  {
    hide Reaches;
    ClosedUnderReaches(f, (iset u | u in seen), d, v);
  }

  /** The variables whose dependencies can be asked for, starting anywhere in the table, are in a finite universe. */
  ghost predicate Bounded<V(!new)>(build: V -> set<V>, universe: set<V>) {
    forall x :: x in universe ==> build(x) <= universe
  }

  /** The dependencies of the tasks and, in waves, of all they depend on; each variable is examined once. */
  method GenerateDependencies<V(==, !new)>(tasklist: seq<V>, build: V -> set<V>, ghost universe: set<V>)
    returns (deps: Deps<V>)
    requires Bounded(build, universe) && forall t :: t in tasklist ==> t in universe
    ensures Closed(deps) && (forall t :: t in tasklist ==> t in deps) && OnRecord(deps, build)
  {
    deps := map[];
    var i := 0;
    while i < |tasklist|
      invariant 0 <= i <= |tasklist| && Closed(deps) && deps.Keys <= universe && OnRecord(deps, build)
      invariant forall k :: 0 <= k < i ==> tasklist[k] in deps
    {
      hide OnRecord;
      hide Closed;
      deps := Explore(deps, tasklist[i], build, universe);
      i := i + 1;
    }
  }

  /** Puts on record what one task depends on. */
  method Explore<V(==, !new)>(before: Deps<V>, task: V, build: V -> set<V>, ghost universe: set<V>)
    returns (deps: Deps<V>)
    requires Bounded(build, universe) && task in universe && Closed(before) && before.Keys <= universe
      && OnRecord(before, build)
    ensures Closed(deps) && deps.Keys <= universe && OnRecord(deps, build) && task in deps && before.Keys <= deps.Keys
  {
    deps := before[task := build(task)];
    var newdeps := deps[task];
    var seen := {};
    ExploreStart(before, task, build, universe);
    while newdeps != {}
      invariant Exploring(deps, build, universe, seen, newdeps) && task in deps && before.Keys <= deps.Keys
      decreases |universe - seen|
    {
      hide Examined;
      hide Bounded;
      hide Exploring;
      ghost var (before', seen') := (deps, seen);
      var nextdeps := newdeps;
      seen := seen + nextdeps;
      ExploringFacts(before', build, universe, seen', nextdeps);
      deps, newdeps := Examine(deps, build, nextdeps);
      ExploreStep(before', deps, build, universe, seen', nextdeps, newdeps);
      newdeps := newdeps - seen;
    }
    ExploringDone(deps, build, universe, seen);
  }

  ghost predicate Exploring<V(!new)>(deps: Deps<V>, build: V -> set<V>, universe: set<V>, seen: set<V>,
      newdeps: set<V>) {
    && deps.Keys <= universe && newdeps <= universe && seen !! newdeps && seen <= deps.Keys
    && Pending(deps, newdeps) && OnRecord(deps, build)
  }

  lemma ExploreStart<V(!new)>(before: Deps<V>, task: V, build: V -> set<V>, universe: set<V>)
    requires Bounded(build, universe) && task in universe && Closed(before) && before.Keys <= universe
      && OnRecord(before, build)
    ensures Exploring(before[task := build(task)], build, universe, {}, build(task))
  {
  }

  lemma ExploringFacts<V(!new)>(deps: Deps<V>, build: V -> set<V>, universe: set<V>, seen: set<V>, newdeps: set<V>)
    requires Exploring(deps, build, universe, seen, newdeps) && newdeps != {}
    ensures OnRecord(deps, build) && |universe - (seen + newdeps)| < |universe - seen|
  {
    Shrinks(universe, seen, newdeps);
  }

  lemma ExploringDone<V(!new)>(deps: Deps<V>, build: V -> set<V>, universe: set<V>, seen: set<V>)
    requires Exploring(deps, build, universe, seen, {})
    ensures Closed(deps) && OnRecord(deps, build) && deps.Keys <= universe
  {
  }

  lemma ExploreStep<V(!new)>(before: Deps<V>, deps: Deps<V>, build: V -> set<V>, universe: set<V>, seen: set<V>,
      nextdeps: set<V>,
                             found: set<V>)
    requires Bounded(build, universe) && Exploring(before, build, universe, seen, nextdeps)
    requires Examined(before, deps, build, nextdeps, found)
    ensures Exploring(deps, build, universe, seen + nextdeps, found - (seen + nextdeps)) && before.Keys <= deps.Keys
  {
    PendingStep(before, deps, build, seen, nextdeps, found);
    UnionWithin(build, nextdeps, universe);
  }

  lemma UnionWithin<V(!new)>(f: V -> set<V>, s: set<V>, universe: set<V>)
    requires Bounded(f, universe) && s <= universe
    ensures Union(f, s) <= universe
  {
  }

  /** A dependency without dependencies on record is still to come. */
  ghost predicate Pending<V(!new)>(deps: Deps<V>, coming: set<V>) {
    forall x, y :: x in deps && y in deps[x] && y !in deps ==> y in coming
  }

  lemma PendingStep<V(!new)>(before: Deps<V>, deps: Deps<V>, build: V -> set<V>, seen: set<V>, nextdeps: set<V>,
      newdeps: set<V>)
    requires Pending(before, nextdeps) && seen <= before.Keys && OnRecord(before, build)
    requires Examined(before, deps, build, nextdeps, newdeps)
    ensures Pending(deps, newdeps - (seen + nextdeps))
  {
    assert forall x, y :: x in before && y in before[x] ==> y in deps.Keys;
    assert forall x :: x in before ==> x in deps.Keys && before[x] == deps[x];
    forall x, y | x in deps && y in deps[x] && y !in deps ensures y in newdeps - (seen + nextdeps) {
    }
  }

  ghost predicate OnRecord<V(!new)>(deps: Deps<V>, build: V -> set<V>) {
    forall x :: x in deps ==> deps[x] == build(x)
  }

  /** The wave has been examined but for the variables in todo. */
  ghost predicate Examined<V(!new)>(before: Deps<V>, deps: Deps<V>, build: V -> set<V>, wave: set<V>, newdeps: set<V>) {
    (forall x :: x in deps <==> x in before || x in wave) && OnRecord(deps, build) && newdeps == Union(build, wave)
  }

  lemma ExaminedNone<V(!new)>(before: Deps<V>, build: V -> set<V>)
    requires OnRecord(before, build)
    ensures Examined(before, before, build, {}, {})
  {
    UnionNone(build);
  }

  lemma ExaminedOne<V(!new)>(before: Deps<V>, deps: Deps<V>, build: V -> set<V>, wave: set<V>, newdeps: set<V>, x: V)
    requires Examined(before, deps, build, wave, newdeps)
    ensures x in deps ==> deps[x] == build(x) && Examined(before, deps, build, wave + {x}, newdeps + build(x))
    ensures Examined(before, deps[x := build(x)], build, wave + {x}, newdeps + build(x))
  {
    UnionOne(build, wave, x);
    hide Union;
  }

  /** Puts the dependencies of one wave on record and collects them. */
  method Examine<V(==, !new)>(before: Deps<V>, build: V -> set<V>, nextdeps: set<V>)
    returns (deps: Deps<V>, newdeps: set<V>)
    requires OnRecord(before, build)
    ensures Examined(before, deps, build, nextdeps, newdeps)
  {
    hide Examined;
    hide OnRecord;
    deps, newdeps := before, {};
    ExaminedNone(before, build);
    var todo := nextdeps;
    assert nextdeps - todo == {};
    while todo != {}
      invariant todo <= nextdeps && Examined(before, deps, build, nextdeps - todo, newdeps)
      decreases |todo|
    {
      var dep := Pick(todo);
      TakeOut(nextdeps, todo, dep);
      ExaminedOne(before, deps, build, nextdeps - todo, newdeps, dep);
      todo := todo - {dep};
      if dep !in deps {
        deps := deps[dep := build(dep)];
      }
      newdeps := newdeps + deps[dep];
    }
    MinusNothing(nextdeps);
  }
}
