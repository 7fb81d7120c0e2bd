/** Choosing among the files that provide the same package. */
module Providers {
  import opened Finite
  import opened Options
  import opened Versions
  import VersionOrder

  type File = string

  /** What the cache knows of a file. */
  datatype Facts = Facts(version: Version, preference: int, priority: int)

  type Cache = map<File, Facts>

  // ----- the latest provider

  /** Better by preference, or by version where the preferences agree. */
  predicate Better(a: Facts, b: Facts) {
    a.preference > b.preference || (a.preference == b.preference && Vercmp(b.version, a.version) < 0)
  }

  /** The relation is a strict order whose incomparable files form a chain of ties. */
  lemma BetterOrder(a: Facts, b: Facts, c: Facts)
    ensures !(Better(a, b) && Better(b, a))
    ensures !Better(b, a) && !Better(c, b) ==> !Better(c, a)
  {
    hide Vercmp;
    VercmpOrder(a.version, b.version);
    VercmpOrder(b.version, c.version);
    VercmpOrder(a.version, c.version);
    if Vercmp(c.version, b.version) <= 0 && Vercmp(b.version, a.version) <= 0 {
      VercmpTransitive(c.version, b.version, a.version);
    }
  }

  /** The higher preference is better, and with equal preferences the later version. */
  lemma BetterIs(a: Facts, b: Facts)
    ensures Better(a, b) <==>
      || a.preference > b.preference
      || (a.preference == b.preference && VersionOrder.VersionBefore(b.version, a.version))
  {
    VersionOrder.VercmpDecides(b.version, a.version);
  }

  /** The first of the files that none of the others is better than. */
  method FindLatestProvider(cache: Cache, files: seq<File>) returns (latest: Option<Version>, latestFile: Option<File>)
    requires forall f :: f in files ==> f in cache
    ensures files == [] <==> latestFile == None
    ensures latest == None <==> latestFile == None
    ensures latestFile.Some? ==> exists k ::
      0 <= k < |files| && files[k] == latestFile.value && IsFirstBest(cache, files, k)
    ensures latestFile.Some? ==> latestFile.value in cache && latest == Some(cache[latestFile.value].version)
  {
    latest, latestFile := None, None;
    var latestPreference := 0;
    var i, best := 0, 0;
    while i < |files|
      invariant 0 <= i <= |files| && (i == 0 <==> latest == None) && (latest == None <==> latestFile == None)
      invariant i > 0 ==> 0 <= best < i && IsFirstBest(cache, files[..i], best)
      invariant i > 0 ==> latestFile == Some(files[best]) && latest == Some(cache[files[best]].version)
      invariant i > 0 ==> latestPreference == cache[files[best]].preference
    {
      var f := files[i];
      var facts := cache[f];
      var newer := false;
      if latest.Some? {
        var c := CompareVersions(latest.value, facts.version);
        newer := c < 0;
      }
      NextBest(cache, files, i, best);
      if latest == None || (latestPreference == facts.preference && newer) || facts.preference > latestPreference {
        latest := Some(facts.version);
        latestFile := Some(f);
        latestPreference := facts.preference;
        best := i;
      }
      i := i + 1;
    }
    assert files[..i] == files;
  }

  /** No file is better than the k-th, and it is better than all before it. */
  ghost predicate IsFirstBest(cache: Cache, files: seq<File>, k: int)
    requires 0 <= k < |files| && forall f :: f in files ==> f in cache
  {
    && (forall j :: 0 <= j < |files| ==> !Better(cache[files[j]], cache[files[k]]))
    && (forall j :: 0 <= j < k ==> Better(cache[files[k]], cache[files[j]]))
  }

  lemma NextBest(cache: Cache, files: seq<File>, i: int, best: int)
    requires (forall f :: f in files ==> f in cache) && 0 <= i < |files|
    requires i > 0 ==> 0 <= best < i && IsFirstBest(cache, files[..i], best)
    ensures if i == 0 || Better(cache[files[i]], cache[files[best]]) then IsFirstBest(cache, files[..i + 1], i)
            else IsFirstBest(cache, files[..i + 1], best)
  {
    var now := files[..i + 1];
    hide Better;
    assert forall j :: 0 <= j <= i ==> now[j] == files[j];
    BetterOrder(cache[files[i]], cache[files[i]], cache[files[i]]);
    forall j | 0 <= j <= i && i > 0
      ensures !(Better(cache[files[i]], cache[files[best]]) && Better(cache[files[best]], cache[files[i]]))
      ensures Better(cache[files[i]], cache[files[best]]) && j < i ==> Better(cache[files[i]], cache[files[j]])
      ensures !(Better(cache[files[i]], cache[files[j]]) && Better(cache[files[j]], cache[files[i]]))
    {
      BetterOrder(cache[files[i]], cache[files[best]], cache[files[i]]);
      BetterOrder(cache[files[i]], cache[files[j]], cache[files[i]]);
      if j < i {
        assert files[..i][j] == files[j] && files[..i][best] == files[best];
        BetterOrder(cache[files[best]], cache[files[j]], cache[files[i]]);
        BetterOrder(cache[files[i]], cache[files[j]], cache[files[best]]);
      }
    }
  }

  // ----- files by priority and preference

  /** The files of a priority and preference, in their order. */
  ghost function Group(cache: Cache, files: seq<File>, pri: int, pref: int): seq<File>
    requires forall f :: f in files ==> f in cache
  {
    if files == [] then []
    else
      var last := files[|files| - 1];
      Group(cache, files[..|files| - 1], pri, pref)
      + if cache[last].priority == pri && cache[last].preference == pref then [last] else []
  }

  /** The groups of a priority for the given preferences, one after another. */
  ghost function Tier(cache: Cache, files: seq<File>, pri: int, prefs: seq<int>): seq<File>
    requires forall f :: f in files ==> f in cache
  {
    if prefs == [] then []
    else Tier(cache, files, pri, prefs[..|prefs| - 1]) + Group(cache, files, pri, prefs[|prefs| - 1])
  }

  ghost predicate Descending(s: seq<int>) {
    forall i, j :: 0 <= i < j < |s| ==> s[i] > s[j]
  }

  ghost predicate Lists(s: seq<int>, values: set<int>) {
    Descending(s) && forall v :: v in s <==> v in values
  }

  method Maximum(s: set<int>) returns (m: int)
    requires s != {}
    ensures m in s && forall v :: v in s ==> v <= m
  {
    m := Pick(s);
    var rest := s - {m};
    while rest != {}
      invariant rest <= s && m in s && forall v :: v in s && v !in rest ==> v <= m
      decreases |rest|
    {
      var v := Pick(rest);
      rest := rest - {v};
      if v > m {
        m := v;
      }
    }
  }

  /** The members of a set in descending order. */
  method SortedDescending(s: set<int>) returns (r: seq<int>)
    ensures Lists(r, s)
  {
    r := [];
    var rest := s;
    while rest != {}
      invariant rest <= s && Lists(r, s - rest)
      invariant forall v, w :: v in rest && w in r ==> v < w
      decreases |rest|
    {
      var m := Maximum(rest);
      assert forall i :: 0 <= i < |r| ==> r[i] in r;
      r := r + [m];
      rest := rest - {m};
    }
  }

  /** The files grouped by priority and preference. */
  method GroupFiles(cache: Cache, files: seq<File>) returns (priorities: map<int, map<int, seq<File>>>)
    requires forall f :: f in files ==> f in cache
    ensures Grouped(cache, files, priorities)
  {
    priorities := map[];
    var k := 0;
    while k < |files|
      invariant 0 <= k <= |files|
      invariant Grouped(cache, files[..k], priorities)
    {
      var f := files[k];
      GroupOneMore(cache, files, k, priorities);
      hide Grouped;
      priorities := AddFile(priorities, cache[f].priority, cache[f].preference, f);
      k := k + 1;
    }
    assert files[..k] == files;
  }

  method AddFile(groups: map<int, map<int, seq<File>>>, pri: int, pref: int, f: File)
    returns (priorities: map<int, map<int, seq<File>>>)
    ensures priorities == Added(groups, pri, pref, f)
  {
    priorities := groups;
    if pri !in priorities {
      priorities := priorities[pri := map[]];
    }
    if pref !in priorities[pri] {
      priorities := priorities[pri := priorities[pri][pref := []]];
    }
    ghost var (inner, group) := (priorities[pri], priorities[pri][pref]);
    priorities := priorities[pri := priorities[pri][pref := priorities[pri][pref] + [f]]];
    assert priorities[pri] == (if pri in groups then groups[pri] else map[])[pref := group + [f]];
  }

  /**
   * The files by descending priority, in one list for each priority; within a
   * list by descending preference, and otherwise in their order.
   */
  method SortPriorities(cache: Cache, files: seq<File>)
    returns (result: seq<seq<File>>, ghost pris: seq<int>, ghost prefs: seq<seq<int>>)
    requires forall f :: f in files ==> f in cache
    ensures Lists(pris, Priorities(cache, files)) && |result| == |pris| == |prefs|
    ensures forall i :: 0 <= i < |result| ==> TierAt(cache, files, pris[i], prefs[i], result[i])
  {
    hide TierAt;
    hide Priorities;
    hide Preferences;
    var priorities := GroupFiles(cache, files);
    assert priorities.Keys == Priorities(cache, files);
    hide Grouped;
    result, prefs := [], [];
    var order := SortedDescending(priorities.Keys);
    pris := order;
    var i := |order|;
    while i > 0
      invariant 0 <= i <= |order| && |result| == |prefs| == |order| - i
      invariant TiersFrom(cache, files, order[i..], prefs, result)
    {
      i := i - 1;
      var pri := order[i];
      assert pri in priorities.Keys;
      var tier, preferences := MakeTier(cache, files, pri, priorities);
      OneMoreTier(cache, files, order[i + 1..], prefs, result, pri, preferences, tier);
      assert order[i..] == [pri] + order[i + 1..];
      result := [tier] + result;
      prefs := [preferences] + prefs;
    }
    assert order[i..] == order;
  }

  ghost predicate TiersFrom(cache: Cache, files: seq<File>, pris: seq<int>, prefs: seq<seq<int>>,
      result: seq<seq<File>>)
    requires forall f :: f in files ==> f in cache
  {
    && |pris| == |prefs| == |result|
    && forall i :: 0 <= i < |result| ==> TierAt(cache, files, pris[i], prefs[i], result[i])
  }

  lemma OneMoreTier(cache: Cache, files: seq<File>, pris: seq<int>, prefs: seq<seq<int>>, result: seq<seq<File>>,
      pri: int, pref: seq<int>,
                    tier: seq<File>)
    requires (forall f :: f in files ==> f in cache) && TiersFrom(cache, files, pris, prefs, result)
      && TierAt(cache, files, pri, pref, tier)
    ensures TiersFrom(cache, files, [pri] + pris, [pref] + prefs, [tier] + result)
  {
    hide TierAt;
  }

  lemma GroupsOf(cache: Cache, files: seq<File>, priorities: map<int, map<int, seq<File>>>, pri: int,
      preferences: seq<int>)
    requires (forall f :: f in files ==> f in cache) && Grouped(cache, files, priorities) && pri in priorities
    requires Lists(preferences, priorities[pri].Keys)
    ensures Lists(preferences, Preferences(cache, files, pri))
    ensures forall k :: 0 <= k < |preferences| ==> IsGroup(cache, files, pri, priorities[pri], preferences[k])
  {
    forall k | 0 <= k < |preferences| ensures IsGroup(cache, files, pri, priorities[pri], preferences[k]) {
      assert preferences[k] in preferences;
    }
  }

  ghost predicate IsGroup(cache: Cache, files: seq<File>, pri: int, groups: map<int, seq<File>>, pref: int)
    requires forall f :: f in files ==> f in cache
  {
    pref in groups && groups[pref] == Group(cache, files, pri, pref)
  }

  method MakeTier(cache: Cache, ghost files: seq<File>, pri: int, priorities: map<int, map<int, seq<File>>>)
      returns (tier: seq<File>, preferences: seq<int>)
    requires (forall f :: f in files ==> f in cache) && Grouped(cache, files, priorities) && pri in priorities
    ensures TierAt(cache, files, pri, preferences, tier)
  {
    preferences := SortedDescending(priorities[pri].Keys);
    GroupsOf(cache, files, priorities, pri, preferences);
    tier := CollectTier(cache, files, pri, priorities[pri], preferences);
  }

  method CollectTier(cache: Cache, ghost files: seq<File>, ghost pri: int, groups: map<int, seq<File>>,
      preferences: seq<int>)
      returns (tier: seq<File>)
    requires forall f :: f in files ==> f in cache
    requires forall k :: 0 <= k < |preferences| ==> IsGroup(cache, files, pri, groups, preferences[k])
    ensures tier == Tier(cache, files, pri, preferences)
  {
    tier := [];
    var i := 0;
    while i < |preferences|
      invariant 0 <= i <= |preferences| && tier == Tier(cache, files, pri, preferences[..i])
    {
      assert IsGroup(cache, files, pri, groups, preferences[i]);
      assert preferences[..i + 1][..i] == preferences[..i];
      tier := tier + groups[preferences[i]];
      i := i + 1;
    }
    assert preferences[..i] == preferences;
  }

  ghost function Priorities(cache: Cache, files: seq<File>): set<int>
    requires forall f :: f in files ==> f in cache
  {
    set f | f in files :: cache[f].priority
  }

  ghost function Preferences(cache: Cache, files: seq<File>, pri: int): set<int>
    requires forall f :: f in files ==> f in cache
  {
    set f | f in files && cache[f].priority == pri :: cache[f].preference
  }

  /** The table of groups built from the files. */
  ghost predicate Grouped(cache: Cache, files: seq<File>, priorities: map<int, map<int, seq<File>>>)
    requires forall f :: f in files ==> f in cache
  {
    && priorities.Keys == Priorities(cache, files)
    && (forall pri :: pri in priorities ==> priorities[pri].Keys == Preferences(cache, files, pri))
    && (forall pri, pref ::
       pri in priorities && pref in priorities[pri] ==> priorities[pri][pref] == Group(cache, files, pri, pref))
  }

  ghost predicate TierAt(cache: Cache, files: seq<File>, pri: int, prefs: seq<int>, tier: seq<File>)
    requires forall f :: f in files ==> f in cache
  {
    Lists(prefs, Preferences(cache, files, pri)) && tier == Tier(cache, files, pri, prefs)
  }

  /** The table with one more file in its group. */
  function Added(priorities: map<int, map<int, seq<File>>>, pri: int, pref: int, f: File): map<int, map<int,
      seq<File>>> {
    var groups := if pri in priorities then priorities[pri] else map[];
    var group := if pref in groups then groups[pref] else [];
    priorities[pri := groups[pref := group + [f]]]
  }

  lemma GroupOneMore(cache: Cache, files: seq<File>, k: int, priorities: map<int, map<int, seq<File>>>)
    requires (forall f :: f in files ==> f in cache) && 0 <= k < |files| && files[k] in cache
    requires Grouped(cache, files[..k], priorities)
    ensures Grouped(cache, files[..k + 1], Added(priorities, cache[files[k]].priority, cache[files[k]].preference,
      files[k]))
  {
    hide Priorities;
    hide Preferences;
    hide Group;
    var (before, now, f) := (files[..k], files[..k + 1], files[k]);
    assert now == before + [f];
    KeysOneMore(cache, before, f);
    NoPreferences(cache, before, cache[f].priority);
    GroupsOneMore(cache, before, f, priorities);
  }

  lemma NoPreferences(cache: Cache, files: seq<File>, pri: int)
    requires forall f :: f in files ==> f in cache
    ensures pri !in Priorities(cache, files) ==> Preferences(cache, files, pri) == {}
  {
  }

  lemma KeysOneMore(cache: Cache, files: seq<File>, f: File)
    requires (forall g :: g in files ==> g in cache) && f in cache
    ensures Priorities(cache, files + [f]) == Priorities(cache, files) + {cache[f].priority}
    ensures forall p :: Preferences(cache, files + [f], p) ==
                        if p == cache[f].priority then Preferences(cache, files, p) + {cache[f].preference}
                            else Preferences(cache, files, p)
  {
    var now := files + [f];
    assert forall g :: g in now <==> g in files || g == f;
    forall p ensures Preferences(cache, now, p) ==
                     if p == cache[f].priority then Preferences(cache, files, p) + {cache[f].preference}
                         else Preferences(cache, files, p)
    {
      assert f in now;
    }
  }

  lemma GroupsOneMore(cache: Cache, files: seq<File>, f: File, priorities: map<int, map<int, seq<File>>>)
    requires (forall g :: g in files ==> g in cache) && f in cache && Grouped(cache, files, priorities)
    ensures var next := Added(priorities, cache[f].priority, cache[f].preference, f);
      forall pri, pref :: pri in next && pref in next[pri] ==> next[pri][pref] == Group(cache, files + [f], pri, pref)
  {
    var now := files + [f];
    assert now[..|now| - 1] == files && now[|now| - 1] == f;
    var (p, q) := (cache[f].priority, cache[f].preference);
    if p !in priorities || q !in priorities[p] {
      NoGroup(cache, files, p, q);
    }
    hide Priorities;
    hide Preferences;
  }

  lemma {:induction false} NoGroup(cache: Cache, files: seq<File>, pri: int, pref: int)
    requires (forall f :: f in files ==> f in cache)
    requires pri !in Priorities(cache, files) || pref !in Preferences(cache, files, pri)
    ensures Group(cache, files, pri, pref) == []
  {
    if files != [] {
      var (init, last) := (files[..|files| - 1], files[|files| - 1]);
      assert last in files;
      assert forall f :: f in init ==> f in files;
      NoGroup(cache, init, pri, pref);
    }
  }

  /** A group holds just the files of its priority and preference, and in the order in which they were given. */
  lemma {:induction false} GroupInOrder(cache: Cache, files: seq<File>, pri: int, pref: int) returns (at: seq<nat>)
    requires forall f :: f in files ==> f in cache
    ensures |at| == |Group(cache, files, pri, pref)| && forall i, j :: 0 <= i < j < |at| ==> at[i] < at[j]
    ensures forall i :: 0 <= i < |at| ==> at[i] < |files| && Group(cache, files, pri, pref)[i] == files[at[i]]
    ensures forall k :: 0 <= k < |files| ==>
      (k in at <==> cache[files[k]].priority == pri && cache[files[k]].preference == pref)
  {
    at := [];
    if files != [] {
      var n := |files| - 1;
      at := GroupInOrder(cache, files[..n], pri, pref);
      if cache[files[n]].priority == pri && cache[files[n]].preference == pref {
        at := at + [n];
      }
    }
  }

  // ----- what the grouping keeps

  ghost function Occurs(s: seq<File>, f: File): nat {
    multiset(s)[f]
  }

  lemma OccursSum(a: seq<File>, b: seq<File>, f: File)
    ensures Occurs(a + b, f) == Occurs(a, f) + Occurs(b, f)
  {
  }

  lemma {:induction false} GroupCount(cache: Cache, files: seq<File>, pri: int, pref: int, f: File)
    requires (forall g :: g in files ==> g in cache) && f in files
    ensures Occurs(Group(cache, files, pri, pref), f) ==
            if cache[f].priority == pri && cache[f].preference == pref then Occurs(files, f) else 0
  {
    var (init, last) := (files[..|files| - 1], files[|files| - 1]);
    assert files == init + [last];
    if f in init {
      GroupCount(cache, init, pri, pref, f);
    } else {
      NotInGroup(cache, init, pri, pref, f);
    }
  }

  lemma {:induction false} NotInGroup(cache: Cache, files: seq<File>, pri: int, pref: int, f: File)
    requires (forall g :: g in files ==> g in cache) && f !in files
    ensures f !in Group(cache, files, pri, pref)
  {
    if files != [] {
      NotInGroup(cache, files[..|files| - 1], pri, pref, f);
      assert files[|files| - 1] in files;
    }
  }

  ghost function Flat(result: seq<seq<File>>): seq<File> {
    if result == [] then [] else Flat(result[..|result| - 1]) + result[|result| - 1]
  }

  lemma {:induction false} TierCount(cache: Cache, files: seq<File>, pri: int, prefs: seq<int>, f: File)
    requires (forall g :: g in files ==> g in cache) && f in files && Descending(prefs)
    ensures Occurs(Tier(cache, files, pri, prefs), f) ==
            if cache[f].priority == pri && cache[f].preference in prefs then Occurs(files, f) else 0
  {
    hide Occurs;
    hide Group;
    if prefs != [] {
      var (init, last) := (prefs[..|prefs| - 1], prefs[|prefs| - 1]);
      TierCount(cache, files, pri, init, f);
      GroupCount(cache, files, pri, last, f);
      OccursSum(Tier(cache, files, pri, init), Group(cache, files, pri, last), f);
      LastOnce(prefs, cache[f].preference);
    } else {
      OccursNever(f);
    }
  }

  lemma OccursNever(f: File)
    ensures Occurs([], f) == 0
  {
  }

  lemma LastOnce(s: seq<int>, v: int)
    requires Descending(s) && s != []
    ensures Descending(s[..|s| - 1]) && (v in s <==> v in s[..|s| - 1] || v == s[|s| - 1])
      && s[|s| - 1] !in s[..|s| - 1]
  {
    assert s == s[..|s| - 1] + [s[|s| - 1]];
  }

  lemma {:induction false} FlatCount(cache: Cache, files: seq<File>, result: seq<seq<File>>, pris: seq<int>,
      prefs: seq<seq<int>>, f: File)
    requires (forall g :: g in files ==> g in cache) && f in files && Descending(pris) && |result| == |pris| == |prefs|
    requires forall i :: 0 <= i < |result| ==> TierAt(cache, files, pris[i], prefs[i], result[i])
    ensures Occurs(Flat(result), f) == if cache[f].priority in pris then Occurs(files, f) else 0
  {
    hide Occurs;
    hide Tier;
    hide Preferences;
    hide Descending;
    if result != [] {
      var n := |result| - 1;
      LastOnce(pris, cache[f].priority);
      forall i | 0 <= i < n ensures TierAt(cache, files, pris[..n][i], prefs[..n][i], result[..n][i]) {
        assert TierAt(cache, files, pris[i], prefs[i], result[i]);
      }
      FlatCount(cache, files, result[..n], pris[..n], prefs[..n], f);
      assert TierAt(cache, files, pris[n], prefs[n], result[n]);
      TierCount(cache, files, pris[n], prefs[n], f);
      OccursSum(Flat(result[..n]), result[n], f);
      PreferenceKnown(cache, files, f);
    } else {
      OccursNever(f);
    }
  }

  lemma PreferenceKnown(cache: Cache, files: seq<File>, f: File)
    requires (forall g :: g in files ==> g in cache) && f in files
    ensures cache[f].preference in Preferences(cache, files, cache[f].priority)
      && cache[f].priority in Priorities(cache, files)
  {
  }

  /** Every file is kept, as often as it was given. */
  lemma KeepsEveryFile(cache: Cache, files: seq<File>, result: seq<seq<File>>, pris: seq<int>, prefs: seq<seq<int>>,
      f: File)
    requires (forall g :: g in files ==> g in cache) && f in files && |result| == |pris| == |prefs|
    requires Lists(pris, Priorities(cache, files))
    requires forall i :: 0 <= i < |result| ==> TierAt(cache, files, pris[i], prefs[i], result[i])
    ensures multiset(Flat(result))[f] == multiset(files)[f]
  {
    FlatCount(cache, files, result, pris, prefs, f);
    PreferenceKnown(cache, files, f);
  }

  lemma {:induction false} GroupOnly(cache: Cache, files: seq<File>, pri: int, pref: int)
    requires forall g :: g in files ==> g in cache
    ensures forall f ::
      f in Group(cache, files, pri, pref) ==> f in files && cache[f].priority == pri && cache[f].preference == pref
  {
    if files != [] {
      var (init, last) := (files[..|files| - 1], files[|files| - 1]);
      GroupOnly(cache, init, pri, pref);
      assert forall f :: f in init ==> f in files;
      assert last in files;
    }
  }

  /** A tier holds files of its priority only, by descending preference. */
  lemma {:induction false} TierOrdered(cache: Cache, files: seq<File>, pri: int, prefs: seq<int>)
    requires (forall g :: g in files ==> g in cache) && Descending(prefs)
    ensures var t := Tier(cache, files, pri, prefs);
      && (forall f :: f in t ==> f in files && cache[f].priority == pri && cache[f].preference in prefs)
      && (forall i, j ::
         0 <= i < j < |t| && t[i] in cache && t[j] in cache ==> cache[t[i]].preference >= cache[t[j]].preference)
  {
    if prefs != [] {
      var (init, last) := (prefs[..|prefs| - 1], prefs[|prefs| - 1]);
      TierOrdered(cache, files, pri, init);
      GroupOnly(cache, files, pri, last);
      var (a, b) := (Tier(cache, files, pri, init), Group(cache, files, pri, last));
      var t := a + b;
      assert prefs == init + [last];
      forall i, j | 0 <= i < j < |t| ensures cache[t[i]].preference >= cache[t[j]].preference {
        if i < |a| {
          assert a[i] in a;
        } else {
          assert b[i - |a|] in b;
        }
        if j < |a| {
          assert a[j] in a;
        } else {
          assert b[j - |a|] in b;
        }
      }
    }
  }
}
