/**
 * The data store: variables in layers, and two copy-on-write dictionaries that
 * track overrides and pending appends. Nothing done to a copy of a store shows
 * in the stores it was copied from.
 */
module DataStore {
  import opened Options
  import V = VarLayers
  import C = CowDict

  // ----- names

  /** The text after the underscore that follows a keyword. */
  function AddOf(rest: string): Option<string> {
    if rest != "" && rest[0] == '_' then Some(rest[1..]) else None
  }

  predicate KeywordAt(name: string, j: nat) {
    j <= |name| && ("_append" <= name[j..] || "_prepend" <= name[j..])
  }

  /** The first keyword in a name at or after position i: what precedes it, the keyword, and the override it names. */
  function KeywordFrom(name: string, i: nat): (r: Option<(string, string, Option<string>)>)
    ensures r == None ==> forall j :: j >= i ==> !KeywordAt(name, j)
    ensures r.Some? ==>
              var (base, keyword, add) := r.value;
              && |base| >= i && keyword in {"_append", "_prepend"} && base + keyword <= name
              && add == AddOf(name[|base + keyword|..])
              && forall j :: i <= j < |base| ==> !KeywordAt(name, j)
    decreases |name| - i
  {
    if i >= |name| then None
    else if "_append" <= name[i..] then
      assert name[..i] + "_append" <= name;
      Some((name[..i], "_append", AddOf(name[i + |"_append"|..])))
    else if "_prepend" <= name[i..] then
      assert name[..i] + "_prepend" <= name;
      Some((name[..i], "_prepend", AddOf(name[i + |"_prepend"|..])))
    else
      assert !KeywordAt(name, i);
      KeywordFrom(name, i + 1)
  }

  function Keyword(name: string): Option<(string, string, Option<string>)> {
    KeywordFrom(name, 0)
  }

  /** A name with a keyword: the parts make it up, but for what follows the keyword without an underscore. */
  lemma KeywordIs(name: string)
    requires Keyword(name).Some?
    ensures var (base, keyword, add) := Keyword(name).value;
      && (add.Some? ==> name == base + keyword + "_" + add.value)
      && (add == None ==> !(base + keyword + "_" <= name))
  {
    var (base, keyword, add) := Keyword(name).value;
    var head := base + keyword;
    var rest := name[|head|..];
    assert name == head + rest;
    if add.Some? {
      assert rest == "_" + add.value;
    } else if head + "_" <= name {
      assert false;
    }
  }

  /** What follows the last underscore of a name. */
  function OverrideOf(name: string): Option<string> {
    if name == "" then None
    else if name[|name| - 1] == '_' then Some("")
    else match OverrideOf(name[..|name| - 1]) {
      case None => None
      case Some(o) => Some(o + [name[|name| - 1]])
    }
  }

  /** The last underscore of a name stands right before its override. */
  lemma {:induction false} OverrideIs(name: string)
    ensures OverrideOf(name) == None <==> '_' !in name
    ensures OverrideOf(name).Some? ==>
      var o := OverrideOf(name).value;
      '_' !in o && |o| < |name| && name == name[..|name| - |o| - 1] + "_" + o
    decreases |name|
  {
    if name != "" {
      var rest, last := name[..|name| - 1], name[|name| - 1];
      assert name == rest + [last];
      OverrideIs(rest);
    }
  }

  // ----- trackers hold sets only

  ghost predicate SetsOnly(ls: seq<C.Level>) {
    forall i :: 0 <= i < |ls| ==> ls[i].plain == map[]
  }

  ghost function Tracked(ls: seq<C.Level>, key: string): set<string> {
    match C.NearestSet(ls, key)
    case Some(s) => s
    case None => {}
  }

  lemma {:induction false} NothingPlain(ls: seq<C.Level>, key: string)
    requires SetsOnly(ls)
    ensures C.NearestPlain(ls, key) == None
  {
    if ls != [] {
      assert ls[0].plain == map[];
      NothingPlain(ls[1..], key);
    }
  }

  /** The own level of a tracker once it holds s under the key. */
  ghost function Tracking(l: C.Level, key: string, s: set<string>): C.Level {
    l.(sets := l.sets[key := s])
  }

  ghost predicate TrackerOk(d: C.CowDict)
    reads d.Chain(), C.Cells(d.Chain())
  {
    d.Valid() && SetsOnly(C.Levels(d.Chain()))
  }

  lemma Split(d: C.CowDict)
    ensures C.Levels(d.Chain()) == [C.LevelOf(d)] + C.Levels(d.above)
    ensures SetsOnly(C.Levels(d.Chain())) <==> d.plain == map[] && SetsOnly(C.Levels(d.above))
  {
    C.Unroll(d.Chain(), 0);
    var ls := C.Levels(d.Chain());
    assert ls[0].plain == d.plain && ls[1..] == C.Levels(d.above);
    if SetsOnly(ls) {
      forall i | 0 <= i < |ls[1..]| ensures ls[1..][i].plain == map[] {
        assert ls[1..][i] == ls[i + 1];
      }
    }
    if d.plain == map[] && SetsOnly(ls[1..]) {
      forall i | 0 <= i < |ls| ensures ls[i].plain == map[] {
        assert i > 0 ==> ls[i] == ls[1..][i - 1];
      }
    }
  }

  /** What a tracker holds itself, and what its bases hold. */
  datatype Held = Held(own: C.Level, above: seq<C.Level>)

  ghost function HeldBy(d: C.CowDict): Held
    reads d, d.mutables.Values, d.above, C.Cells(d.above)
  {
    Held(C.LevelOf(d), C.Levels(d.above))
  }

  ghost function WithTracked(h: Held, key: string, name: string): Held {
    h.(own := Tracking(h.own, key, Tracked([h.own] + h.above, key) + {name}))
  }

  ghost function WithoutTracked(h: Held, key: string, name: string): Held {
    if C.NearestSet([h.own] + h.above, key) == None then h
    else h.(own := Tracking(h.own, key, Tracked([h.own] + h.above, key) - {name}))
  }

  /** A variable is replaced by another, where it is tracked. */
  ghost function Retracked(h: Held, keyword: string, key: string, newKey: string): Held {
    var rest := WithoutTracked(h, keyword, key);
    if key in Tracked([h.own] + h.above, keyword) then WithTracked(rest, keyword, newKey) else rest
  }

  /** Makes sure that there is a set under the key. */
  method Ensure(d: C.CowDict, key: string)
    requires TrackerOk(d)
    modifies d`mutables
    ensures TrackerOk(d) && C.Levels(d.above) == old(C.Levels(d.above))
      && fresh(d.mutables.Values - old(d.mutables).Values)
    ensures C.NearestSet(C.Levels(d.Chain()), key) == Some(old(Tracked(C.Levels(d.Chain()), key)))
    ensures C.LevelOf(d) == old(C.LevelOf(d)) || C.LevelOf(d) == old(Tracking(C.LevelOf(d), key, {}))
  {
    hide C.Levels;
    hide C.LevelOf;
    hide C.ApartMaps;
    hide C.Linked;
    hide SetsOnly;
    Split(d);
    NothingPlain(C.Levels(d.Chain()), key);
    var has := d.HasKey(key);
    Split(d);
    if !has {
      d.SetNew(key);
      Split(d);
    }
  }

  /** Adds a name to the set of a key, which need not exist yet. */
  method Track(d: C.CowDict, key: string, name: string)
    requires TrackerOk(d)
    modifies d, d.mutables.Values
    ensures TrackerOk(d) && fresh(d.mutables.Values - old(d.mutables).Values)
    ensures HeldBy(d) == WithTracked(old(HeldBy(d)), key, name)
  {
    hide C.Levels;
    hide C.LevelOf;
    hide C.ApartMaps;
    hide C.Linked;
    hide SetsOnly;
    Split(d);
    Ensure(d, key);
    Split(d);
    NothingPlain(C.Levels(d.Chain()), key);
    d.Add(key, name);
    Split(d);
  }

  /** Removes a name from the set of a key, if there is such a set. */
  method Untrack(d: C.CowDict, key: string, name: string)
    requires TrackerOk(d)
    modifies d, d.mutables.Values
    ensures TrackerOk(d) && fresh(d.mutables.Values - old(d.mutables).Values)
    ensures HeldBy(d) == WithoutTracked(old(HeldBy(d)), key, name)
  {
    hide C.Levels;
    hide C.LevelOf;
    hide C.ApartMaps;
    hide C.Linked;
    hide SetsOnly;
    Split(d);
    NothingPlain(C.Levels(d.Chain()), key);
    var has := d.HasKey(key);
    Split(d);
    if has {
      d.Remove(key, name);
      Split(d);
    }
  }

  // ----- the store

  /** The override and keyword trackers of a store never share a dictionary or a set. */
  ghost predicate Separate(a: C.CowDict, b: C.CowDict)
    reads a.Chain(), b.Chain()
  {
    && (forall d :: d in a.Chain() ==> d !in b.Chain())
    && C.Cells(a.Chain()) !! C.Cells(b.Chain())
  }

  method CopyTracker(d: C.CowDict) returns (s: C.CowDict)
    requires TrackerOk(d)
    ensures TrackerOk(s) && fresh(s) && s.above == d.Chain() && s.mutables == map[]
  {
    hide C.ApartMaps;
    hide C.Linked;
    hide C.Levels;
    hide C.LevelOf;
    hide SetsOnly;
    s := new C.CowDict.Overlay(d);
    Split(s);
  }

  ghost predicate TrackersOk(a: C.CowDict, b: C.CowDict)
    reads a.Chain(), b.Chain(), C.Cells(a.Chain()), C.Cells(b.Chain())
  {
    TrackerOk(a) && TrackerOk(b) && Separate(a, b)
  }

  /** Names the objects on which the trackers of a store depend. */
  ghost function TrackerCells(a: C.CowDict, b: C.CowDict): (r: (set<C.Cell>, set<C.Cell>, set<C.Cell>, set<C.Cell>))
    reads a.Chain(), b.Chain(), a.above, b.above
  {
    (C.Cells(a.Chain()), C.Cells(b.Chain()), C.Cells(a.above), C.Cells(b.above))
  }

  /** Changing the own sets of a leaves b alone. */
  lemma OwnCells(a: C.CowDict, b: C.CowDict)
    requires Separate(a, b)
    ensures forall d :: d in a.Chain() ==> d !in b.Chain()
    ensures C.Cells(a.above) !! C.Cells(b.Chain())
    ensures a !in b.Chain()
    ensures forall c :: c in C.Cells(b.Chain()) ==> c !in a.mutables.Values
  {
    assert a in a.Chain();
    forall k | k in a.mutables ensures a.mutables[k] in C.Cells(a.Chain()) {
    }
  }

  /** Tracks in a; b, the other tracker of the store, stays as it is. */
  method TrackIn(a: C.CowDict, b: C.CowDict, key: string, name: string)
    requires TrackersOk(a, b)
    modifies a, a.mutables.Values
    ensures TrackersOk(a, b) && fresh(a.mutables.Values - old(a.mutables).Values)
    ensures HeldBy(a) == WithTracked(old(HeldBy(a)), key, name) && HeldBy(b) == old(HeldBy(b))
  {
    ghost var cells, above, others := C.Cells(b.Chain()), C.Cells(a.above), C.Cells(b.above);
    OwnCells(a, b);
    C.NotAbove(a);
    hide TrackerOk;
    hide Separate;
    hide HeldBy;
    hide WithTracked;
    hide WithoutTracked;
    Track(a, key, name);
    assert C.Cells(b.Chain()) == cells && C.Cells(a.above) == above;
    StillSeparate(a, b);
  }

  /** Likewise for removing a name. */
  method UntrackIn(a: C.CowDict, b: C.CowDict, key: string, name: string)
    requires TrackersOk(a, b)
    modifies a, a.mutables.Values
    ensures TrackersOk(a, b) && fresh(a.mutables.Values - old(a.mutables).Values)
    ensures HeldBy(a) == WithoutTracked(old(HeldBy(a)), key, name) && HeldBy(b) == old(HeldBy(b))
  {
    ghost var cells, above, others := C.Cells(b.Chain()), C.Cells(a.above), C.Cells(b.above);
    OwnCells(a, b);
    C.NotAbove(a);
    hide TrackerOk;
    hide Separate;
    hide HeldBy;
    hide WithTracked;
    hide WithoutTracked;
    Untrack(a, key, name);
    assert C.Cells(b.Chain()) == cells && C.Cells(a.above) == above;
    StillSeparate(a, b);
  }

  lemma Symmetric(a: C.CowDict, b: C.CowDict)
    requires TrackersOk(a, b)
    ensures TrackersOk(b, a)
  {
  }

  lemma StillSeparate(a: C.CowDict, b: C.CowDict)
    requires forall d :: d in a.Chain() ==> d !in b.Chain()
    requires C.Cells(a.above) !! C.Cells(b.Chain()) && a.mutables.Values !! C.Cells(b.Chain())
    ensures Separate(a, b)
  {
  }

  method CopyTrackers(a: C.CowDict, b: C.CowDict) returns (s: C.CowDict, p: C.CowDict)
    requires TrackerOk(a) && TrackerOk(b) && Separate(a, b)
    ensures TrackerOk(s) && fresh(s) && s.above == a.Chain() && s.mutables == map[]
    ensures TrackerOk(p) && fresh(p) && p.above == b.Chain() && p.mutables == map[]
    ensures Separate(s, p)
  {
    hide TrackerOk;
    hide Separate;
    ghost var others := C.Cells(b.Chain());
    s := CopyTracker(a);
    ghost var cells := C.Cells(s.Chain());
    p := CopyTracker(b);
    SeparateCopies(a, b, s, p);
  }

  lemma SeparateCopies(a: C.CowDict, b: C.CowDict, s: C.CowDict, p: C.CowDict)
    requires Separate(a, b) && s.above == a.Chain() && p.above == b.Chain() && s.mutables == map[] && p.mutables ==
      map[]
    requires s != p && s !in b.Chain() && p !in a.Chain()
    ensures Separate(s, p)
  {
    assert C.Cells(s.Chain()) == C.Cells(a.Chain());
    assert C.Cells(p.Chain()) == C.Cells(b.Chain());
  }

  // ----- the store as a value

  /** What a store holds itself, and what the stores hold that it was copied from. */
  datatype Store = Store(own: V.Vars, above: seq<V.Vars>, seen: Held, special: Held)
  {
    ghost function View(): seq<V.Vars> {
      [own] + above
    }

    ghost function SetFlag(name: string, flag: string, value: V.Flag): Store {
      this.(own := own[name := V.FlagsOf(View(), name)[flag := value]])
    }

    ghost function Clear(name: string): Store {
      this.(own := own[name := map[]])
    }

    /** Handing the values waiting for a variable over to another, in the given list. */
    ghost function Hand(key: string, newKey: string, keyword: string, list: V.Flag): Store {
      SetFlag(newKey, keyword, list).(special := Retracked(special, keyword, key, newKey))
    }

    /** Renaming a variable, as far as it came, given its content and the new lists of waiting values, if any. */
    ghost function Rename(outcome: Renaming, key: string, newKey: string, val: Option<V.Flag>, noted: V.ListBox?,
        appended: V.ListBox?, prepended: V.ListBox?): Store
    {
      var s1 := Put(newKey, val, noted);
      match outcome
      case Unset => this
      case Unhanded(_) => s1.HandBoth(key, newKey, appended, prepended)
      case Renamed => s1.HandBoth(key, newKey, appended, prepended).DelVar(key)
    }

    /** Setting a variable, or noting its value in the given list. */
    ghost function Put(name: string, val: Option<V.Flag>, noted: V.ListBox?): Store {
      if val == None then this
      else if Keyword(name) == None then SetContent(name, val.value)
      else if noted == null then this
      else Note(Keyword(name).value.0, Keyword(name).value.1, V.List(noted))
    }

    ghost function HandBoth(key: string, newKey: string, appended: V.ListBox?, prepended: V.ListBox?): Store {
      var s1 := if appended == null then this else Hand(key, newKey, "_append", V.List(appended));
      if prepended == null then s1 else s1.Hand(key, newKey, "_prepend", V.List(prepended))
    }

    /** Setting the content of a variable, whose name may end in an override. */
    ghost function SetContent(name: string, value: V.Flag): Store {
      var s := SetFlag(name, "content", value);
      match OverrideOf(name)
      case Some(o) => if o != "" then s.(seen := WithTracked(seen, o, name)) else s
      case None => s
    }

    ghost function DelVar(name: string): Store {
      var s := Clear(name);
      match OverrideOf(name)
      case Some(o) => if o != "" then s.(seen := WithoutTracked(seen, o, name)) else s
      case None => s
    }

    /** Noting a value to be appended or prepended later, in the given list. */
    ghost function Note(base: string, keyword: string, list: V.Flag): Store {
      SetFlag(base, keyword, list).(special := WithTracked(special, keyword, base))
    }
  }

  /** A flag that holds text cannot be appended to. */
  ghost predicate Unlisted(f: Option<V.Flag>) {
    f.Some? && f.value.Words? && f.value.text != ""
  }

  // ----- the store as an object

  class DataSmart {
    const dict: V.Layer
    const seen: C.CowDict
    const special: C.CowDict

    ghost predicate Valid()
      reads dict.Chain(), seen.Chain(), special.Chain(), C.Cells(seen.Chain()), C.Cells(special.Chain())
    {
      dict.Valid() && TrackersOk(seen, special)
    }

    ghost function Now(): Store
      reads dict, dict.vars.Values, dict.above, V.Entries(dict.above), seen, seen.mutables.Values, seen.above,
          C.Cells(seen.above)
      reads special, special.mutables.Values, special.above, C.Cells(special.above)
    {
      Store(V.Own(dict), V.View(dict.above), HeldBy(seen), HeldBy(special))
    }

    /** The objects that belong to this store alone. */
    ghost function Region(): set<object>
      reads dict, seen, special
    {
      {dict, seen, special} + dict.vars.Values + seen.mutables.Values + special.mutables.Values
    }

    constructor (dict: V.Layer, seen: C.CowDict, special: C.CowDict)
      ensures this.dict == dict && this.seen == seen && this.special == special
    {
      this.dict := dict;
      this.seen := seen;
      this.special := special;
    }

    /** A live overlay of this store. */
    method CreateCopy() returns (data: DataSmart)
      requires Valid()
      ensures data.Valid() && fresh(data) && fresh(data.dict) && fresh(data.seen) && fresh(data.special)
      ensures data.dict.vars == map[] && data.seen.mutables == map[] && data.special.mutables == map[]
      ensures data.dict.above == dict.Chain() && data.seen.above == seen.Chain() && data.special.above ==
        special.Chain()
    {
      hide V.ApartMaps;
      hide V.Linked;
      hide TrackerOk;
      hide Separate;
      var s, p := CopyTrackers(seen, special);
      ghost var cells, others := C.Cells(s.Chain()), C.Cells(p.Chain());
      var layer := new V.Layer.Overlay(dict);
      data := new DataSmart(layer, s, p);
    }

    /** Changes a flag and nothing else. */
    method SetFlag(name: string, flag: string, value: V.Flag)
      requires Valid()
      modifies Region()
      ensures Valid() && (forall o :: o in Region() ==> o in old(Region()) || fresh(o)) && Now() ==
        old(Now().SetFlag(name, flag, value))
    {
      hide TrackersOk;
      hide HeldBy;
      hide V.ApartMaps;
      hide V.Linked;
      ghost var cells := TrackerCells(seen, special);
      V.Split(dict);
      hide V.View;
      hide V.Own;
      hide V.FlagsOf;
      dict.SetFlag(name, flag, value);
    }

    method Clear(name: string)
      requires Valid()
      modifies Region()
      ensures Valid() && (forall o :: o in Region() ==> o in old(Region()) || fresh(o)) && Now() ==
        old(Now().Clear(name))
    {
      hide TrackersOk;
      hide HeldBy;
      hide V.ApartMaps;
      hide V.Linked;
      hide V.Own;
      hide V.View;
      ghost var cells := TrackerCells(seen, special);
      dict.Clear(name);
    }

    method DelFlagLocal(name: string, flag: string)
      requires Valid()
      modifies Region()
      ensures Valid() && (forall o :: o in Region() ==> o in old(Region()) || fresh(o))
      ensures Now() == old(Now().(own := V.WithoutFlag(Now().own, name, V.FlagsOf(Now().View(), name), flag)))
    {
      hide TrackersOk;
      hide HeldBy;
      hide V.ApartMaps;
      hide V.Linked;
      ghost var cells := TrackerCells(seen, special);
      V.Split(dict);
      hide V.View;
      hide V.Own;
      hide V.FlagsOf;
      dict.DelFlag(name, flag);
    }

    method DelVarFlags(name: string)
      requires Valid()
      modifies Region()
      ensures Valid() && (forall o :: o in Region() ==> o in old(Region()) || fresh(o))
      ensures Now() == old(Now().(own := V.WithoutFlags(Now().own, name, V.FlagsOf(Now().View(), name))))
    {
      hide TrackersOk;
      hide HeldBy;
      hide V.ApartMaps;
      hide V.Linked;
      ghost var cells := TrackerCells(seen, special);
      V.Split(dict);
      hide V.View;
      hide V.Own;
      hide V.FlagsOf;
      dict.DelFlags(name);
    }

    /** Notes a name in the override tracker. */
    method TrackSeen(key: string, name: string)
      requires Valid()
      modifies Region()
      ensures Valid() && (forall o :: o in Region() ==> o in old(Region()) || fresh(o))
      ensures Now() == old(Now()).(seen := WithTracked(old(Now()).seen, key, name))
    {
      hide TrackersOk;
      hide HeldBy;
      hide WithTracked;
      hide WithoutTracked;
      hide V.ApartMaps;
      hide V.Linked;
      hide V.Own;
      hide V.View;
      ghost var entries, others := V.Entries(dict.Chain()), V.Entries(dict.above);
      TrackIn(seen, special, key, name);
    }

    /** Drops a name from the override tracker. */
    method UntrackSeen(key: string, name: string)
      requires Valid()
      modifies Region()
      ensures Valid() && (forall o :: o in Region() ==> o in old(Region()) || fresh(o))
      ensures Now() == old(Now()).(seen := WithoutTracked(old(Now()).seen, key, name))
    {
      hide TrackersOk;
      hide HeldBy;
      hide WithTracked;
      hide WithoutTracked;
      hide V.ApartMaps;
      hide V.Linked;
      hide V.Own;
      hide V.View;
      ghost var entries, others := V.Entries(dict.Chain()), V.Entries(dict.above);
      UntrackIn(seen, special, key, name);
    }

    /** Notes a variable in the keyword tracker. */
    method TrackSpecial(key: string, name: string)
      requires Valid()
      modifies Region()
      ensures Valid() && (forall o :: o in Region() ==> o in old(Region()) || fresh(o))
      ensures Now() == old(Now()).(special := WithTracked(old(Now()).special, key, name))
    {
      hide TrackersOk;
      hide HeldBy;
      hide WithTracked;
      hide WithoutTracked;
      hide V.ApartMaps;
      hide V.Linked;
      hide V.Own;
      hide V.View;
      ghost var entries, others := V.Entries(dict.Chain()), V.Entries(dict.above);
      Symmetric(seen, special);
      TrackIn(special, seen, key, name);
      Symmetric(special, seen);
    }

    /** Drops a variable from the keyword tracker. */
    method UntrackSpecial(key: string, name: string)
      requires Valid()
      modifies Region()
      ensures Valid() && (forall o :: o in Region() ==> o in old(Region()) || fresh(o))
      ensures Now() == old(Now()).(special := WithoutTracked(old(Now()).special, key, name))
    {
      hide TrackersOk;
      hide HeldBy;
      hide WithTracked;
      hide WithoutTracked;
      hide V.ApartMaps;
      hide V.Linked;
      hide V.Own;
      hide V.View;
      ghost var entries, others := V.Entries(dict.Chain()), V.Entries(dict.above);
      Symmetric(seen, special);
      UntrackIn(special, seen, key, name);
      Symmetric(special, seen);
    }

    /** Whether a flag holds text where a list belongs. */
    method HoldsText(name: string, flag: string) returns (text: bool)
      requires Valid()
      ensures Valid() && Now() == old(Now()) && Region() == old(Region())
      ensures text <==> Unlisted(V.FlagOf(Now().View(), name, flag, false))
    {
      hide V.FlagOf;
      hide TrackersOk;
      hide HeldBy;
      hide V.ApartMaps;
      hide V.Linked;
      V.Split(dict);
      hide V.Own;
      hide V.View;
      ghost var cells := TrackerCells(seen, special);
      var f := dict.GetFlag(name, flag, false);
      return f.Some? && f.value.Words? && f.value.text != "";
    }

    /** The values waiting under a keyword, in a new list, with one more; null if the flag holds something else. */
    method Lengthened(base: string, keyword: string, value: V.Flag, add: Option<string>) returns (box: V.ListBox?)
      requires Valid()
      ensures Valid() && Now() == old(Now()) && Region() == old(Region())
      ensures box == null <==> Unlisted(V.FlagOf(Now().View(), base, keyword, false))
      ensures box != null ==>
                fresh(box) && box.items == old(V.Listed(V.FlagOf(Now().View(), base, keyword, false)))
                  + [V.Pending(value, add)]
    {
      hide TrackersOk;
      hide HeldBy;
      hide V.ApartMaps;
      hide V.Linked;
      V.Split(dict);
      hide V.Own;
      hide V.View;
      hide V.FlagsOf;
      ghost var cells, entries, others := TrackerCells(seen, special), V.Entries(dict.Chain()), V.Entries(dict.above);
      assert V.View(dict.Chain()) == Now().View();
      V.Boxed(dict.Chain(), base, keyword, false);
      hide V.FlagOf;
      var text := HoldsText(base, keyword);
      if text {
        return null;
      }
      box := V.Extended(dict, base, keyword, V.Pending(value, add));
    }

    /** Sets the content of a variable. */
    method SetContent(name: string, value: V.Flag)
      requires Valid()
      modifies Region()
      ensures Valid() && (forall o :: o in Region() ==> o in old(Region()) || fresh(o)) && Now() ==
        old(Now()).SetContent(name, value)
    {
      hide DataSmart.Now;
      hide DataSmart.Valid;
      hide DataSmart.Region;
      hide V.FlagsOf;
      hide WithTracked;
      match OverrideOf(name) {
        case Some(o) =>
          if o != "" {
            TrackSeen(o, name);
          }
        case None =>
      }
      SetFlag(name, "content", value);
    }

    method DelVar(name: string)
      requires Valid()
      modifies Region()
      ensures Valid() && (forall o :: o in Region() ==> o in old(Region()) || fresh(o)) && Now() ==
        old(Now()).DelVar(name)
      ensures Deleted(old(Now()), Now(), name)
    {
      hide DataSmart.Now;
      hide DataSmart.Valid;
      hide DataSmart.Region;
      hide WithoutTracked;
      hide Deleted;
      DelVarSeen(Now(), name);
      Clear(name);
      match OverrideOf(name) {
        case Some(o) =>
          if o != "" {
            UntrackSeen(o, name);
          }
        case None =>
      }
    }

    /** Notes a value to be appended or prepended later; fails if the flag cannot be appended to. */
    method Note(base: string, keyword: string, value: V.Flag, add: Option<string>) returns (box: V.ListBox?)
      requires Valid()
      modifies Region()
      ensures Valid() && (forall o :: o in Region() ==> o in old(Region()) || fresh(o))
      ensures box == null <==> Unlisted(V.FlagOf(old(Now()).View(), base, keyword, false))
      ensures box == null ==> Now() == old(Now())
      ensures box != null ==>
                && fresh(box) && box.items == old(V.Listed(V.FlagOf(Now().View(), base, keyword, false)))
                   + [V.Pending(value, add)]
                && Now() == old(Now()).Note(base, keyword, V.List(box))
    {
      hide DataSmart.Now;
      hide DataSmart.Valid;
      hide DataSmart.Region;
      hide WithTracked;
      hide V.FlagsOf;
      hide V.FlagOf;
      box := Lengthened(base, keyword, value, add);
      if box != null {
        NotInRegion(this, box);
        SetFlag(base, keyword, V.List(box));
        NotInRegion(this, box);
        TrackSpecial(keyword, base);
      }
    }

    /** Sets a variable; a name with a keyword notes the value for later instead. */
    method SetVar(name: string, value: V.Flag) returns (box: V.ListBox?)
      requires Valid()
      modifies Region()
      ensures Valid() && (forall o :: o in Region() ==> o in old(Region()) || fresh(o))
      ensures Keyword(name) == None ==> box == null && Now() == old(Now()).SetContent(name, value)
      ensures Keyword(name).Some? ==>
                var (base, keyword, add) := Keyword(name).value;
                && (box == null <==> Unlisted(V.FlagOf(old(Now()).View(), base, keyword, false)))
                && (box == null ==> Now() == old(Now()))
                && (box != null ==>
                      && fresh(box) && box.items == old(V.Listed(V.FlagOf(Now().View(), base, keyword, false)))
                         + [V.Pending(value, add)]
                      && Now() == old(Now()).Note(base, keyword, V.List(box))
                      && WasNoted(old(Now()), Now(), base, keyword, V.List(box)))
      ensures Keyword(name) == None ==> WasSet(old(Now()), Now(), name, value)
    {
      hide DataSmart.Now;
      hide DataSmart.Valid;
      hide DataSmart.Region;
      hide WasNoted;
      hide WasSet;
      ghost var s := Now();
      match Keyword(name) {
        case None =>
          box := null;
          SetContentSeen(s, name, value);
          SetContent(name, value);
        case Some(k) =>
          box := Note(k.0, k.1, value, k.2);
          if box != null {
            NoteSeen(s, k.0, k.1, V.List(box));
          }
      }
    }

    /** The values waiting for newKey and then those waiting for key, in a new list. */
    method Joined(key: string, newKey: string, keyword: string) returns (box: V.ListBox?)
      requires Valid()
      ensures Valid() && Now() == old(Now()) && Region() == old(Region())
      ensures box != null ==> fresh(box)
      ensures Holds(box, old(Waiting(Now(), newKey, key, keyword)))
    {
      hide TrackersOk;
      hide HeldBy;
      hide V.ApartMaps;
      hide V.Linked;
      V.Split(dict);
      hide V.Own;
      hide V.View;
      hide V.FlagsOf;
      ghost var cells, entries, others := TrackerCells(seen, special), V.Entries(dict.Chain()), V.Entries(dict.above);
      assert V.View(dict.Chain()) == Now().View();
      hide V.FlagOf;
      box := V.Joined(dict, key, newKey, keyword);
    }

    /** Whether the keyword tracker has the variable. */
    method IsTracked(keyword: string, key: string) returns (tracked: bool)
      requires Valid()
      ensures Valid() && Now() == old(Now()) && Region() == old(Region())
      ensures tracked <==> key in Tracked([Now().special.own] + Now().special.above, keyword)
    {
      Split(special);
      NothingPlain(C.Levels(special.Chain()), keyword);
      hide TrackersOk;
      hide C.ApartMaps;
      hide C.Linked;
      hide V.ApartMaps;
      hide V.Linked;
      hide C.Levels;
      hide C.LevelOf;
      hide V.Own;
      hide V.View;
      ghost var cells, entries, others := TrackerCells(seen, special), V.Entries(dict.Chain()), V.Entries(dict.above);
      var cell := special.FindMutable(keyword);
      return cell != null && key in cell.items;
    }

    /** Hands the values waiting for one variable over to another; fails if text stands where they belong. */
    method Hand(key: string, newKey: string, keyword: string) returns (failed: bool, box: V.ListBox?)
      requires Valid()
      modifies Region()
      ensures Valid() && (forall o :: o in Region() ==> o in old(Region()) || fresh(o))
      ensures failed == Blocked(old(Now()), key, newKey, keyword)
      ensures box != null ==> fresh(box)
      ensures failed ==> box == null
      ensures !failed ==> Holds(box, old(Waiting(Now(), newKey, key, keyword)))
      ensures Now() == if box == null then old(Now()) else old(Now()).Hand(key, newKey, keyword, V.List(box))
    {
      hide DataSmart.Now;
      hide DataSmart.Valid;
      hide DataSmart.Region;
      hide WithTracked;
      hide WithoutTracked;
      hide Tracked;
      hide Retracked;
      hide V.FlagsOf;
      hide V.FlagOf;
      ghost var waits := Waiting(Now(), newKey, key, keyword);
      box := Joined(key, newKey, keyword);
      var text := HoldsText(newKey, keyword);
      failed := box != null && text;
      if failed {
        box := null;
      } else if box != null {
        NotInRegion(this, box);
        SetFlag(newKey, keyword, V.List(box));
        NotInRegion(this, box);
        Retrack(keyword, key, newKey);
        assert Holds(box, waits);
      }
    }

    /** Replaces a variable by another in the keyword tracker. */
    method Retrack(keyword: string, key: string, newKey: string)
      requires Valid()
      modifies Region()
      ensures Valid() && (forall o :: o in Region() ==> o in old(Region()) || fresh(o)) && Now() ==
        old(Now()).(special := Retracked(old(Now()).special, keyword, key, newKey))
    {
      hide DataSmart.Now;
      hide DataSmart.Valid;
      hide DataSmart.Region;
      hide WithTracked;
      hide WithoutTracked;
      hide Tracked;
      var tracked := IsTracked(keyword, key);
      UntrackSpecial(keyword, key);
      if tracked {
        TrackSpecial(keyword, newKey);
      }
    }

    method GetVarFlag(name: string, flag: string, noWeakDefault: bool) returns (value: Option<V.Flag>)
      requires Valid()
      ensures Valid() && Now() == old(Now()) && Region() == old(Region())
      ensures match V.FlagOf(Now().View(), name, flag, noWeakDefault) {
                case None => value == None
                case Some(Words(w)) => value == Some(V.Words(w))
                case Some(List(_)) => value.Some? && value.value.List? && fresh(value.value.box)
              }
      ensures V.Listed(value) == old(V.Listed(V.FlagOf(Now().View(), name, flag, noWeakDefault)))
    {
      hide TrackersOk;
      hide HeldBy;
      hide V.ApartMaps;
      hide V.Linked;
      V.Split(dict);
      hide V.Own;
      hide V.View;
      hide V.FlagsOf;
      ghost var cells, entries, others := TrackerCells(seen, special), V.Entries(dict.Chain()), V.Entries(dict.above);
      assert V.View(dict.Chain()) == Now().View();
      hide V.FlagOf;
      value := dict.GetFlag(name, flag, noWeakDefault);
    }

    /** Sets one variable to the content of another, if it has any; fails if that is to be noted where text stands. */
    method PutContent(key: string, newKey: string)
      returns (ok: bool, ghost val: Option<V.Flag>, ghost noted: V.ListBox?)
      requires Valid()
      modifies Region()
      ensures Valid() && (forall o :: o in Region() ==> o in old(Region()) || fresh(o))
      ensures CopyOf(val, old(ContentOf(Now(), key))) && fresh(V.BoxOf(val)) && (noted != null ==> fresh(noted))
      ensures ok == !Unnotable(old(Now()), newKey, val)
      ensures Now() == if ok then old(Now()).Put(newKey, val, noted) else old(Now())
      ensures noted != null <==> ok && val.Some? && Keyword(newKey).Some?
      ensures noted != null ==>
        noted.items == old(Noted(Now(), newKey)) + [V.Pending(val.value, Keyword(newKey).value.2)]
    {
      hide DataSmart.Now;
      hide DataSmart.Valid;
      hide DataSmart.Region;
      hide V.FlagOf;
      hide V.FlagsOf;
      if Keyword(newKey).Some? {
        NotedExists(this, newKey);
      }
      var content := GetVarFlag(key, "content", false);
      val, noted, ok := content, null, true;
      if content.Some? {
        BoxesOutside(this);
        var box := SetVar(newKey, content.value);
        noted := box;
        ok := Keyword(newKey) == None || box != null;
      }
    }

    /** Hands over what waits under both keywords, until text stands in the way. */
    method HandBoth(key: string, newKey: string)
      returns (blocked: Option<string>, ghost appended: V.ListBox?, ghost prepended: V.ListBox?)
      requires Valid()
      modifies Region()
      ensures Valid() && (forall o :: o in Region() ==> o in old(Region()) || fresh(o))
      ensures blocked == BlockedAt(old(Now()), key, newKey)
      ensures Now() == old(Now()).HandBoth(key, newKey, appended, prepended)
      ensures Handed(blocked, appended, prepended, old(WaitsOf(Now(), key, newKey)))
      ensures (appended != null ==> fresh(appended)) && (prepended != null ==> fresh(prepended))
    {
      hide DataSmart.Now;
      hide DataSmart.Valid;
      hide DataSmart.Region;
      hide V.FlagOf;
      hide V.FlagsOf;
      ghost var s0 := Now();
      ListsExist(this, key, newKey);
      BoxesOutside(this);
      var failed, first := Hand(key, newKey, "_append");
      appended, prepended := first, null;
      if failed {
        return Some("_append"), appended, prepended;
      }
      if first != null {
        HandKeepsFlags(s0, key, newKey, "_append", V.List(first));
      }
      BoxesOutside(this);
      var second;
      failed, second := Hand(key, newKey, "_prepend");
      prepended := second;
      blocked := if failed then Some("_prepend") else None;
    }

    /** Hands over what waits under both keywords and deletes the old name, unless text stands in the way. */
    method HandOver(key: string, newKey: string)
        returns (blocked: Option<string>, ghost appended: V.ListBox?, ghost prepended: V.ListBox?)
      requires Valid()
      modifies Region()
      ensures Valid() && (forall o :: o in Region() ==> o in old(Region()) || fresh(o))
      ensures blocked == BlockedAt(old(Now()), key, newKey)
      ensures Now() == var s := old(Now()).HandBoth(key, newKey, appended, prepended);
        if blocked.Some? then s else s.DelVar(key)
      ensures Handed(blocked, appended, prepended, WaitsOf(old(Now()), key, newKey))
      ensures (appended != null ==> fresh(appended)) && (prepended != null ==> fresh(prepended))
    {
      hide DataSmart.Now;
      hide DataSmart.Valid;
      hide DataSmart.Region;
      hide V.FlagOf;
      hide BlockedAt;
      hide WaitsOf;
      hide Handed;
      hide Store.HandBoth;
      hide Store.DelVar;
      ghost var s := Now();
      ListsExist(this, key, newKey);
      ghost var waits, boxes := WaitsOf(s, key, newKey), BoxesOf(s, key, newKey);
      BoxesOutside(this);
      blocked, appended, prepended := HandBoth(key, newKey);
      assert forall b: V.ListBox :: b in boxes ==> b.items == old(b.items);
      assert WaitsOf(s, key, newKey) == waits;
      if blocked == None {
        BoxesOutside(this);
        DelVar(key);
        assert WaitsOf(s, key, newKey) == waits;
      }
    }

    /**
     * Renames a variable: its content is set under the new name, the values
     * waiting for it are handed over, in order behind those that wait for the
     * new name, and the old name is deleted. Where text stands in the place of
     * a list of waiting values, it stops half way.
     */
    method RenameVar(key: string, newKey: string)
        returns (outcome: Renaming, ghost val: Option<V.Flag>, ghost noted: V.ListBox?, ghost appended: V.ListBox?,
                 ghost prepended: V.ListBox?)
      requires Valid()
      modifies Region()
      ensures Valid() && (forall o :: o in Region() ==> o in old(Region()) || fresh(o))
      ensures outcome == RenamingOf(old(Now()), key, newKey, val, noted)
      ensures Now() == old(Now()).Rename(outcome, key, newKey, val, noted, appended, prepended)
      ensures outcome == Renamed ==> WasRenamed(old(Now()), Now(), key, newKey, val, noted, appended, prepended)
      ensures CopyOf(val, old(ContentOf(Now(), key)))
      ensures noted != null <==> outcome != Unset && val.Some? && Keyword(newKey).Some?
      ensures noted != null ==>
        noted.items == old(Noted(Now(), newKey)) + [V.Pending(val.value, Keyword(newKey).value.2)]
      ensures outcome == Unset ==> appended == null && prepended == null
      ensures outcome != Unset ==>
        Handed(BlockOf(outcome), appended, prepended, WaitsOf(old(Now()).Put(newKey, val, noted), key, newKey))
      ensures fresh(V.BoxOf(val)) && (noted != null ==> fresh(noted))
      ensures (appended != null ==> fresh(appended)) && (prepended != null ==> fresh(prepended))
    {
      hide DataSmart.Now;
      hide DataSmart.Valid;
      hide DataSmart.Region;
      hide V.FlagOf;
      hide V.FlagsOf;
      hide BlockedAt;
      hide Unnotable;
      hide WaitsOf;
      hide CopyOf;
      hide ContentOf;
      hide Handed;
      hide Noted;
      hide Store.Put;
      hide Store.HandBoth;
      hide Store.DelVar;
      hide WasRenamed;
      ghost var s := Now();
      appended, prepended := null, null;
      var ok;
      ok, val, noted := PutContent(key, newKey);
      if !ok {
        return Unset, val, noted, appended, prepended;
      }
      BoxesOutside(this);
      var blocked;
      blocked, appended, prepended := HandOver(key, newKey);
      outcome := match blocked case Some(keyword) => Unhanded(keyword) case None => Renamed;
      RenameSeen(s, key, newKey, val, noted, appended, prepended);
    }
  }

  /** How far renaming came: to the end, not to the content, or not past the values that wait under a keyword. */
  datatype Renaming = Renamed | Unset | Unhanded(keyword: string)

  ghost function BlockOf(outcome: Renaming): Option<string> {
    if outcome.Unhanded? then Some(outcome.keyword) else None
  }

  /** Something waits for the old name under the keyword, and text stands there for the new name. */
  ghost predicate Blocked(s: Store, key: string, newKey: string, keyword: string) {
    V.FlagOf(s.View(), key, keyword, false).Some? && Unlisted(V.FlagOf(s.View(), newKey, keyword, false))
  }

  ghost function BlockedAt(s: Store, key: string, newKey: string): Option<string> {
    if Blocked(s, key, newKey, "_append") then Some("_append")
    else if Blocked(s, key, newKey, "_prepend") then Some("_prepend")
    else None
  }

  /** The content is to be noted for later, and text stands where the list belongs. */
  ghost predicate Unnotable(s: Store, newKey: string, val: Option<V.Flag>) {
    && val.Some? && Keyword(newKey).Some?
    && Unlisted(V.FlagOf(s.View(), Keyword(newKey).value.0, Keyword(newKey).value.1, false))
  }

  /** How renaming ends, seen from the start. */
  ghost function RenamingOf(s: Store, key: string, newKey: string, val: Option<V.Flag>, noted: V.ListBox?): Renaming {
    if Unnotable(s, newKey, val) then Unset
    else
      match BlockedAt(s.Put(newKey, val, noted), key, newKey)
      case Some(keyword) => Unhanded(keyword)
      case None => Renamed
  }

  /** The values noted so far where the new name says that its content is to be noted. */
  ghost function Noted(s: Store, newKey: string): seq<V.Pending>
    reads if Keyword(newKey).Some?
      then V.BoxOf(V.FlagOf(s.View(), Keyword(newKey).value.0, Keyword(newKey).value.1, false)) else {}
  {
    if Keyword(newKey) == None then []
    else V.Listed(V.FlagOf(s.View(), Keyword(newKey).value.0, Keyword(newKey).value.1, false))
  }

  lemma NotedExists(d: DataSmart, newKey: string)
    requires Keyword(newKey).Some?
    ensures var f := V.FlagOf(d.Now().View(), Keyword(newKey).value.0, Keyword(newKey).value.1, false);
      f.Some? && f.value.List? ==> allocated(f.value.box)
  {
    V.Split(d.dict);
    assert V.View(d.dict.Chain()) == d.Now().View();
    V.Boxed(d.dict.Chain(), Keyword(newKey).value.0, Keyword(newKey).value.1, false);
  }

  /** The values waiting for the new name, and then what waits for the old one. */
  ghost function Waiting(s: Store, newKey: string, key: string, keyword: string): Option<seq<V.Pending>>
    reads V.BoxOf(V.FlagOf(s.View(), newKey, keyword, false)), V.BoxOf(V.FlagOf(s.View(), key, keyword, false))
  {
    if V.FlagOf(s.View(), key, keyword, false) == None then None
    else Some(V.Listed(V.FlagOf(s.View(), newKey, keyword, false)) + V.ItemsOf(V.FlagOf(s.View(), key, keyword, false)))
  }

  /** The lists of what waits for either name. */
  ghost function BoxesOf(s: Store, key: string, newKey: string): set<V.ListBox> {
    V.BoxOf(V.FlagOf(s.View(), newKey, "_append", false)) + V.BoxOf(V.FlagOf(s.View(), key, "_append", false))
    + V.BoxOf(V.FlagOf(s.View(), newKey, "_prepend", false)) + V.BoxOf(V.FlagOf(s.View(), key, "_prepend", false))
  }

  /** First all that waited for the new name, in order, and behind it all that waited for the old one, in order. */
  lemma WaitsInOrder(s: Store, newKey: string, key: string, keyword: string)
    requires V.FlagOf(s.View(), key, keyword, false).Some?
    ensures var (w, mine, his) := (Waiting(s, newKey, key, keyword),
        V.Listed(V.FlagOf(s.View(), newKey, keyword, false)), V.ItemsOf(V.FlagOf(s.View(), key, keyword, false)));
      && w.Some? && |w.value| == |mine| + |his|
      && (forall i :: 0 <= i < |mine| ==> w.value[i] == mine[i])
      && (forall i :: 0 <= i < |his| ==> w.value[|mine| + i] == his[i])
  {
  }

  /** What renaming is to hand over under each keyword, if anything waits for the old name. */
  datatype Waits = Waits(append: Option<seq<V.Pending>>, prepend: Option<seq<V.Pending>>)

  ghost function WaitsOf(s: Store, key: string, newKey: string): Waits
    reads BoxesOf(s, key, newKey)
  {
    Waits(Waiting(s, newKey, key, "_append"), Waiting(s, newKey, key, "_prepend"))
  }

  /** The list holds exactly the values, in order; there is none if there are none to hold. */
  ghost predicate Holds(box: V.ListBox?, items: Option<seq<V.Pending>>)
    reads if box != null then {box} else {}
  {
    items == if box == null then None else Some(box.items)
  }

  /** The lists hold what was to be handed over, up to where that stopped. */
  ghost predicate Handed(blocked: Option<string>, appended: V.ListBox?, prepended: V.ListBox?, w: Waits)
    reads if appended != null then {appended} else {}
    reads if prepended != null then {prepended} else {}
  {
    && (if blocked == Some("_append") then appended == null else Holds(appended, w.append))
    && (if blocked.Some? then prepended == null else Holds(prepended, w.prepend))
  }

  ghost function ContentOf(s: Store, key: string): (Option<V.Flag>, seq<V.Pending>)
    reads V.BoxOf(V.FlagOf(s.View(), key, "content", false))
  {
    (V.FlagOf(s.View(), key, "content", false), V.Listed(V.FlagOf(s.View(), key, "content", false)))
  }

  /** The same text, or a list with the same values. */
  ghost predicate CopyOf(val: Option<V.Flag>, content: (Option<V.Flag>, seq<V.Pending>))
    reads V.BoxOf(val)
  {
    && V.Listed(val) == content.1
    && match content.0
       case None => val == None
       case Some(Words(w)) => val == Some(V.Words(w))
       case Some(List(_)) => val.Some? && val.value.List?
  }

  /** The lists of a store exist already. */
  lemma ListsExist(d: DataSmart, key: string, newKey: string)
    ensures forall k, f | k in {key, newKey} && f in {"content", "_append", "_prepend"} ::
              var flag := V.FlagOf(d.Now().View(), k, f, false);
                  flag.Some? && flag.value.List? ==> allocated(flag.value.box)
  {
    V.Split(d.dict);
    assert V.View(d.dict.Chain()) == d.Now().View();
    forall k, f | k in {key, newKey} && f in {"content", "_append", "_prepend"}
      ensures var flag := V.FlagOf(d.Now().View(), k, f, false);
        flag.Some? && flag.value.List? ==> allocated(flag.value.box)
    {
      V.Boxed(d.dict.Chain(), k, f, false);
    }
  }

  /** No list belongs to what a store changes in place. */
  lemma BoxesOutside(d: DataSmart)
    ensures forall o :: o in d.Region() ==> !(o is V.ListBox)
  {
  }

  // ----- what a caller sees afterwards

  /** No lookup finds anything of the variable. */
  ghost predicate Gone(s: Store, name: string) {
    forall f, w :: V.FlagOf(s.View(), name, f, w) == None
  }

  /** Every lookup of the flag gives the value. */
  ghost predicate Reads(s: Store, name: string, flag: string, value: V.Flag) {
    forall w :: V.FlagOf(s.View(), name, flag, w) == Some(value)
  }

  /** All other variables are looked up as before. */
  ghost predicate SameElse(s: Store, t: Store, name: string) {
    forall n :: n != name ==> V.Find(t.View(), n) == V.Find(s.View(), n)
  }

  /** All other flags of the variable, and all other variables, are as before. */
  ghost predicate OnlyFlag(s: Store, t: Store, name: string, flag: string) {
    SameElse(s, t, name) && forall f :: f != flag ==>
      V.FlagOf(t.View(), name, f, true) == V.FlagOf(s.View(), name, f, true)
  }

  ghost function TrackedIn(h: Held, key: string): set<string> {
    Tracked([h.own] + h.above, key)
  }

  /** The name is tracked under the key now, and nothing else has changed. */
  ghost predicate Joins(h: Held, h': Held, key: string, name: string) {
    forall k, n :: n in TrackedIn(h', k) <==> n in TrackedIn(h, k) || (k == key && n == name)
  }

  ghost predicate Leaves(h: Held, h': Held, key: string, name: string) {
    forall k, n :: n in TrackedIn(h', k) <==> n in TrackedIn(h, k) && !(k == key && n == name)
  }

  lemma TrackingSeen(h: Held, key: string, name: string)
    ensures Joins(h, WithTracked(h, key, name), key, name) && Leaves(h, WithoutTracked(h, key, name), key, name)
  {
    var h1, h2 := WithTracked(h, key, name), WithoutTracked(h, key, name);
    assert ([h1.own] + h1.above)[1..] == h.above && ([h.own] + h.above)[1..] == h.above;
    assert ([h2.own] + h2.above)[1..] == h.above;
  }

  /** The override at the end of a name, if it has one. */
  ghost predicate HasOverride(name: string, o: string) {
    o != "" && OverrideOf(name) == Some(o)
  }

  /** A deleted variable is gone, from the override tracker too. */
  ghost predicate Deleted(s: Store, t: Store, name: string) {
    && Gone(t, name) && SameElse(s, t, name) && t.special == s.special
    && (forall o :: HasOverride(name, o) ==> Leaves(s.seen, t.seen, o, name))
    && ((forall o :: !HasOverride(name, o)) ==> t.seen == s.seen)
  }

  /** A variable that was set reads as the value, and is tracked under the override that its name ends with. */
  ghost predicate WasSet(s: Store, t: Store, name: string, value: V.Flag) {
    && Reads(t, name, "content", value) && OnlyFlag(s, t, name, "content") && t.special == s.special
    && (forall o :: HasOverride(name, o) ==> Joins(s.seen, t.seen, o, name))
    && ((forall o :: !HasOverride(name, o)) ==> t.seen == s.seen)
  }

  /** A value was noted: the list is read under the keyword of the variable, which is tracked there. */
  ghost predicate WasNoted(s: Store, t: Store, base: string, keyword: string, list: V.Flag) {
    && Reads(t, base, keyword, list) && OnlyFlag(s, t, base, keyword)
    && t.seen == s.seen && Joins(s.special, t.special, keyword, base)
  }

  lemma FlagSet(s: Store, name: string, flag: string, value: V.Flag)
    ensures Reads(s.SetFlag(name, flag, value), name, flag, value)
    ensures OnlyFlag(s, s.SetFlag(name, flag, value), name, flag)
  {
    var t := s.SetFlag(name, flag, value);
    assert t.View()[1..] == s.View()[1..];
  }

  lemma DelVarSeen(s: Store, name: string)
    ensures Deleted(s, s.DelVar(name), name)
  {
    hide WithoutTracked;
    hide Leaves;
    hide Joins;
    var t := s.DelVar(name);
    assert t.View()[1..] == s.View()[1..];
    if OverrideOf(name).Some? && OverrideOf(name).value != "" {
      assert HasOverride(name, OverrideOf(name).value);
      TrackingSeen(s.seen, OverrideOf(name).value, name);
    }
  }

  lemma SetContentSeen(s: Store, name: string, value: V.Flag)
    ensures WasSet(s, s.SetContent(name, value), name, value)
  {
    hide WithTracked;
    hide Leaves;
    hide Joins;
    hide Reads;
    hide OnlyFlag;
    FlagSet(s, name, "content", value);
    OnlyTrackers(s.SetFlag(name, "content", value), s.SetContent(name, value), name, "content", value, s);
    if OverrideOf(name).Some? && OverrideOf(name).value != "" {
      assert HasOverride(name, OverrideOf(name).value);
      TrackingSeen(s.seen, OverrideOf(name).value, name);
    }
  }

  /** Lookups see the variables only, not the trackers. */
  lemma OnlyTrackers(t: Store, t': Store, name: string, flag: string, value: V.Flag, s: Store)
    requires t'.own == t.own && t'.above == t.above
    ensures Reads(t, name, flag, value) ==> Reads(t', name, flag, value)
    ensures OnlyFlag(s, t, name, flag) ==> OnlyFlag(s, t', name, flag)
  {
    assert t'.View() == t.View();
  }

  lemma NoteSeen(s: Store, base: string, keyword: string, list: V.Flag)
    ensures WasNoted(s, s.Note(base, keyword, list), base, keyword, list)
  {
    hide WithTracked;
    hide Leaves;
    hide Joins;
    hide Reads;
    hide OnlyFlag;
    FlagSet(s, base, keyword, list);
    OnlyTrackers(s.SetFlag(base, keyword, list), s.Note(base, keyword, list), base, keyword, list, s);
    TrackingSeen(s.special, keyword, base);
  }

  /** Where the old name was tracked under the keyword, the new one is in its place. */
  ghost predicate Moves(h: Held, h': Held, keyword: string, key: string, newKey: string) {
    forall k, n :: n in TrackedIn(h', k) <==>
      if k == keyword && key in TrackedIn(h, keyword) then n == newKey || (n in TrackedIn(h, k) && n != key)
      else n in TrackedIn(h, k)
  }

  /** What waited for one name was handed over to another, in the list. */
  ghost predicate WasHanded(s: Store, t: Store, key: string, newKey: string, keyword: string, list: V.Flag) {
    && Reads(t, newKey, keyword, list) && OnlyFlag(s, t, newKey, keyword)
    && t.seen == s.seen && Moves(s.special, t.special, keyword, key, newKey)
  }

  lemma RetrackedMoves(h: Held, keyword: string, key: string, newKey: string)
    ensures Moves(h, Retracked(h, keyword, key, newKey), keyword, key, newKey)
  {
    hide WithTracked;
    hide WithoutTracked;
    hide Tracked;
    TrackingSeen(h, keyword, key);
    TrackingSeen(WithoutTracked(h, keyword, key), keyword, newKey);
  }

  lemma HandSeen(s: Store, key: string, newKey: string, keyword: string, list: V.Flag)
    ensures WasHanded(s, s.Hand(key, newKey, keyword, list), key, newKey, keyword, list)
  {
    hide Retracked;
    hide Moves;
    hide Reads;
    hide OnlyFlag;
    FlagSet(s, newKey, keyword, list);
    OnlyTrackers(s.SetFlag(newKey, keyword, list), s.Hand(key, newKey, keyword, list), newKey, keyword, list, s);
    RetrackedMoves(s.special, keyword, key, newKey);
  }

  /** A flag still reads the same after another flag was set. */
  lemma StillReads(s: Store, t: Store, name: string, flag: string, value: V.Flag, n: string, f: string)
    requires Reads(s, name, flag, value) && OnlyFlag(s, t, n, f) && (n != name || f != flag)
    ensures Reads(t, name, flag, value)
  {
    assert V.FlagOf(s.View(), name, flag, true) == Some(value);
    if n == name {
      assert V.FlagOf(t.View(), name, flag, true) == Some(value);
    } else {
      SameFlags(s, t, name);
    }
  }

  lemma SameFlags(s: Store, t: Store, name: string)
    requires V.Find(t.View(), name) == V.Find(s.View(), name)
    ensures forall f, w :: V.FlagOf(t.View(), name, f, w) == V.FlagOf(s.View(), name, f, w)
  {
  }

  lemma StillReadsElse(s: Store, t: Store, name: string, flag: string, value: V.Flag, n: string)
    requires Reads(s, name, flag, value) && SameElse(s, t, n) && n != name
    ensures Reads(t, name, flag, value)
  {
    SameFlags(s, t, name);
  }

  /** What was put under the new name, handed over to it and deleted under the old one, as a caller sees it. */
  ghost predicate WasRenamed(s: Store, t: Store, key: string, newKey: string, val: Option<V.Flag>, noted: V.ListBox?,
      appended: V.ListBox?, prepended: V.ListBox?) {
    && Gone(t, key)
    && (key != newKey && val.Some? && Keyword(newKey) == None ==> Reads(t, newKey, "content", val.value))
    && (val.Some? && Keyword(newKey).Some? && noted != null && Keyword(newKey).value.0 != key ==>
          Reads(t, Keyword(newKey).value.0, Keyword(newKey).value.1, V.List(noted)))
    && (key != newKey && appended != null ==> Reads(t, newKey, "_append", V.List(appended)))
    && (key != newKey && prepended != null ==> Reads(t, newKey, "_prepend", V.List(prepended)))
    && forall n :: n != key && n != newKey && (Keyword(newKey).Some? ==> n != Keyword(newKey).value.0) ==>
                     V.Find(t.View(), n) == V.Find(s.View(), n)
  }

  lemma PutSeen(s: Store, name: string, val: Option<V.Flag>, noted: V.ListBox?)
    ensures var t := s.Put(name, val, noted);
      && (val.Some? && Keyword(name) == None ==> WasSet(s, t, name, val.value))
      && (val.Some? && Keyword(name).Some? && noted != null ==>
            WasNoted(s, t, Keyword(name).value.0, Keyword(name).value.1, V.List(noted)))
      && (val == None || (Keyword(name).Some? && noted == null) ==> t == s)
  {
    hide WasSet;
    hide WasNoted;
    hide Keyword;
    if val.Some? && Keyword(name) == None {
      SetContentSeen(s, name, val.value);
    }
    if val.Some? && Keyword(name).Some? && noted != null {
      NoteSeen(s, Keyword(name).value.0, Keyword(name).value.1, V.List(noted));
    }
  }

  lemma NothingHanded(s: Store, name: string, flag: string)
    ensures OnlyFlag(s, s, name, flag)
  {
  }

  /** Handing over under both keywords, and what was read before is read still. */
  lemma HandBothSeen(s: Store, key: string, newKey: string, appended: V.ListBox?, prepended: V.ListBox?, n: string,
      f: string, value: V.Flag)
    ensures var t := s.HandBoth(key, newKey, appended, prepended);
      && (appended != null ==> Reads(t, newKey, "_append", V.List(appended)))
      && (prepended != null ==> Reads(t, newKey, "_prepend", V.List(prepended)))
      && SameElse(s, t, newKey)
      && (Reads(s, n, f, value) && (n != newKey || f == "content") ==> Reads(t, n, f, value))
  {
    hide Store.Hand;
    hide Reads;
    hide Moves;
    var s1 := if appended == null then s else s.Hand(key, newKey, "_append", V.List(appended));
    var t := s.HandBoth(key, newKey, appended, prepended);
    NothingHanded(s, newKey, "_append");
    NothingHanded(s1, newKey, "_prepend");
    if appended != null {
      HandSeen(s, key, newKey, "_append", V.List(appended));
    }
    if prepended != null {
      HandSeen(s1, key, newKey, "_prepend", V.List(prepended));
      if appended != null {
        StillReads(s1, t, newKey, "_append", V.List(appended), newKey, "_prepend");
      }
    }
    assert OnlyFlag(s, s1, newKey, "_append") && OnlyFlag(s1, t, newKey, "_prepend");
    if Reads(s, n, f, value) && (n != newKey || f == "content") {
      StillReads(s, s1, n, f, value, newKey, "_append");
      StillReads(s1, t, n, f, value, newKey, "_prepend");
    }
  }

  /** The old name is gone, and another name has its content and what waited for it. */
  lemma RenameSeen(s: Store, key: string, newKey: string, val: Option<V.Flag>, noted: V.ListBox?,
      appended: V.ListBox?, prepended: V.ListBox?)
    ensures WasRenamed(s, s.Rename(Renamed, key, newKey, val, noted, appended, prepended), key, newKey, val, noted,
      appended, prepended)
  {
    hide Store.Put;
    hide Store.HandBoth;
    hide Store.DelVar;
    hide Reads;
    hide Gone;
    hide Keyword;
    var s1 := s.Put(newKey, val, noted);
    var s3 := s1.HandBoth(key, newKey, appended, prepended);
    var t := s3.DelVar(key);
    var base, flag, value := newKey, "content", if val.Some? then val.value else V.Words("");
    if noted != null && Keyword(newKey).Some? {
      base, flag, value := Keyword(newKey).value.0, Keyword(newKey).value.1, V.List(noted);
      BaseIsOther(newKey);
    }
    PutSeen(s, newKey, val, noted);
    HandBothSeen(s1, key, newKey, appended, prepended, base, flag, value);
    DelVarSeen(s3, key);
    if key != newKey && appended != null {
      StillReadsElse(s3, t, newKey, "_append", V.List(appended), key);
    }
    if key != newKey && prepended != null {
      StillReadsElse(s3, t, newKey, "_prepend", V.List(prepended), key);
    }
    if Reads(s3, base, flag, value) && base != key {
      StillReadsElse(s3, t, base, flag, value, key);
    }
  }

  lemma BaseIsOther(name: string)
    requires Keyword(name).Some?
    ensures Keyword(name).value.0 != name
  {
  }

  /** Setting a flag is seen by lookups of that flag and by no others. */
  lemma SetFlagSeen(s: Store, name: string, flag: string, value: V.Flag, n: string, f: string)
    requires f != "content"
    ensures V.FlagOf(s.SetFlag(name, flag, value).View(), n, f, false) ==
            if n == name && f == flag then Some(value) else V.FlagOf(s.View(), n, f, false)
  {
    var s' := s.SetFlag(name, flag, value);
    assert s'.View()[1..] == s.View()[1..];
  }

  lemma HandKeepsFlags(s: Store, key: string, newKey: string, keyword: string, list: V.Flag)
    ensures forall n, f :: f in {"_append", "_prepend"} ==>
              V.FlagOf(s.Hand(key, newKey, keyword, list).View(), n, f, false) ==
              if n == newKey && f == keyword then Some(list) else V.FlagOf(s.View(), n, f, false)
  {
    var s' := s.Hand(key, newKey, keyword, list);
    forall n, f | f in {"_append", "_prepend"}
      ensures V.FlagOf(s'.View(), n, f, false) == if n == newKey && f == keyword then Some(list)
        else V.FlagOf(s.View(), n, f, false)
    {
      SetFlagSeen(s, newKey, keyword, list, n, f);
      assert s'.View() == s.SetFlag(newKey, keyword, list).View();
    }
  }

  /** Lists are never changed in place by a store. */
  lemma NotInRegion(d: DataSmart, box: V.ListBox)
    ensures (box as object) !in d.Region()
  {
  }

  // ----- isolation

  /** A copy sits directly above what it was copied from: what it inherits is what the other store sees now. */
  lemma CopySeesOriginal(data: DataSmart, d: DataSmart)
    requires data.dict.above == d.dict.Chain() && data.seen.above == d.seen.Chain() && data.special.above ==
      d.special.Chain()
    ensures data.Now().above == d.Now().View()
    ensures data.Now().seen.above == [d.Now().seen.own] + d.Now().seen.above
    ensures data.Now().special.above == [d.Now().special.own] + d.Now().special.above
  {
    V.Split(d.dict);
    Split(d.seen);
    Split(d.special);
  }

  /** The changes that can be made to a store. */
  datatype Change =
    | SetFlag(name: string, flag: string, value: V.Flag)
    | SetContent(name: string, value: V.Flag)
    | DelVar(name: string)
    | DelFlag(name: string, flag: string)
    | DelFlags(name: string)
    | Note(name: string, keyword: string, list: V.Flag)
    | Hand(name: string, keyword: string, from: string, list: V.Flag)

  ghost function Changed(s: Store, c: Change): Store {
    match c
    case SetFlag(name, flag, value) => s.SetFlag(name, flag, value)
    case SetContent(name, value) => s.SetContent(name, value)
    case DelVar(name) => s.DelVar(name)
    case DelFlag(name, flag) => s.(own := V.WithoutFlag(s.own, name, V.FlagsOf(s.View(), name), flag))
    case DelFlags(name) => s.(own := V.WithoutFlags(s.own, name, V.FlagsOf(s.View(), name)))
    case Note(name, keyword, list) => s.Note(name, keyword, list)
    case Hand(name, keyword, from, list) => s.Hand(from, name, keyword, list)
  }

  ghost function ChangedBy(s: Store, cs: seq<Change>): Store {
    if cs == [] then s else Changed(ChangedBy(s, cs[..|cs| - 1]), cs[|cs| - 1])
  }

  /**
   * Whatever is done to a store, the stores it was copied from keep their
   * variables and tracked names; and a variable not named by any change is
   * still looked up as before.
   */
  lemma {:induction false} Isolated(s: Store, cs: seq<Change>, name: string)
    ensures ChangedBy(s, cs).above == s.above
    ensures ChangedBy(s, cs).seen.above == s.seen.above && ChangedBy(s, cs).special.above == s.special.above
    ensures (forall c :: c in cs ==> c.name != name) ==>
      V.Find(ChangedBy(s, cs).View(), name) == V.Find(s.View(), name)
  {
    var t := ChangedBy(s, cs);
    AllAlike(s, cs, name);
    assert s.View()[1..] == s.above && t.View()[1..] == t.above;
  }

  /** The same for ancestors and, unless touched, for the store's own entry of a variable. */
  ghost predicate Alike(s: Store, t: Store, name: string, touched: bool) {
    && t.above == s.above && t.seen.above == s.seen.above && t.special.above == s.special.above
    && (touched || if name in s.own then name in t.own && t.own[name] == s.own[name] else name !in t.own)
  }

  lemma {:induction false} AllAlike(s: Store, cs: seq<Change>, name: string)
    ensures Alike(s, ChangedBy(s, cs), name, exists c :: c in cs && c.name == name)
  {
    if cs != [] {
      var init, c := cs[..|cs| - 1], cs[|cs| - 1];
      AllAlike(s, init, name);
      assert forall d :: d in init ==> d in cs;
      assert c in cs;
      OneChange(ChangedBy(s, init), c, name);
    }
  }

  lemma SetContentAlike(s: Store, n: string, value: V.Flag, name: string)
    ensures Alike(s, s.SetContent(n, value), name, n == name)
  {
    hide WithTracked;
    hide V.FlagsOf;
    TrackingKeepsAbove();
  }

  lemma HandAlike(s: Store, key: string, newKey: string, keyword: string, list: V.Flag, name: string)
    ensures Alike(s, s.Hand(key, newKey, keyword, list), name, newKey == name)
  {
    hide WithTracked;
    hide WithoutTracked;
    hide V.FlagsOf;
    TrackingKeepsAbove();
  }

  lemma DelVarAlike(s: Store, n: string, name: string)
    ensures Alike(s, s.DelVar(n), name, n == name)
  {
    hide WithoutTracked;
    TrackingKeepsAbove();
  }

  lemma OneChange(s: Store, c: Change, name: string)
    ensures Alike(s, Changed(s, c), name, c.name == name)
  {
    hide WithTracked;
    hide WithoutTracked;
    TrackingKeepsAbove();
    hide V.FlagsOf;
    match c {
      case Hand(n, keyword, from, list) => HandAlike(s, from, n, keyword, list, name);
      case SetContent(n, value) => SetContentAlike(s, n, value, name);
      case DelVar(n) => DelVarAlike(s, n, name);
      case _ =>
    }
  }

  lemma TrackingKeepsAbove()
    ensures forall h, key, name :: WithTracked(h, key, name).above == h.above
    ensures forall h, key, name :: WithoutTracked(h, key, name).above == h.above
  {
  }
}
