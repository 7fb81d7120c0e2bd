/**
 * Copy-on-write dictionaries: a copy is a live overlay that sees what its base
 * holds, and gets a set of its own the moment it asks for one.
 */
module CowDict {
  import opened Options

  /** A set object, shared by reference. */
  class Cell {
    var items: set<string>

    constructor (items: set<string>)
      ensures this.items == items
    {
      this.items := items;
    }
  }

  /** What is bound under the key itself: an immutable value, or the marker of a deleted key. */
  datatype Plain = Value(text: string) | Deleted

  datatype Item = Missing | Immutable(text: string) | Mutable(cell: Cell)

  // ----- dictionaries as values: one level per dictionary of the chain, the nearest first

  datatype Level = Level(plain: map<string, Plain>, sets: map<string, set<string>>)

  datatype Content = Nothing | Text(text: string) | Items(items: set<string>)

  ghost function NearestPlain(ls: seq<Level>, key: string): Option<Plain> {
    if ls == [] then None
    else if key in ls[0].plain then Some(ls[0].plain[key])
    else NearestPlain(ls[1..], key)
  }

  ghost function NearestSet(ls: seq<Level>, key: string): Option<set<string>> {
    if ls == [] then None
    else if key in ls[0].sets then Some(ls[0].sets[key])
    else NearestSet(ls[1..], key)
  }

  ghost function PlainContent(p: Plain): Content {
    match p
    case Value(v) => Text(v)
    case Deleted => Nothing
  }

  /** What a dictionary answers: any immutable binding of the chain comes before all mutable ones. */
  ghost function Lookup(ls: seq<Level>, key: string): Content {
    match NearestPlain(ls, key)
    case Some(p) => PlainContent(p)
    case None => match NearestSet(ls, key) {
      case Some(s) => Items(s)
      case None => Nothing
    }
  }

  /** What a reader expects: the binding of the nearest level that has one. */
  ghost function Nearest(ls: seq<Level>, key: string): Content {
    if ls == [] then Nothing
    else if key in ls[0].plain then PlainContent(ls[0].plain[key])
    else if key in ls[0].sets then Items(ls[0].sets[key])
    else Nearest(ls[1..], key)
  }

  /** The nearest level that binds the key binds it to a set, with an immutable binding behind it. */
  ghost predicate Masked(ls: seq<Level>, key: string) {
    if ls == [] || key in ls[0].plain then false
    else if key in ls[0].sets then NearestPlain(ls[1..], key) != None
    else Masked(ls[1..], key)
  }

  /** A dictionary answers with the nearest binding exactly if no immutable one lies behind a nearer set. */
  lemma {:induction false} LookupNearest(ls: seq<Level>, key: string)
    ensures Lookup(ls, key) == Nearest(ls, key) <==> !Masked(ls, key)
  {
    if ls != [] && key !in ls[0].plain && key !in ls[0].sets {
      LookupNearest(ls[1..], key);
    }
  }

  /** The copy a reader gets of an inherited set answers like the original. */
  lemma CopyInvisible(ls: seq<Level>, key: string, s: set<string>, k: string)
    requires ls != [] && NearestSet(ls, key) == Some(s)
    ensures Lookup([ls[0].(sets := ls[0].sets[key := s])] + ls[1..], k) == Lookup(ls, k)
  {
    var ls' := [ls[0].(sets := ls[0].sets[key := s])] + ls[1..];
    assert ls'[1..] == ls[1..];
  }

  // ----- dictionaries as objects

  class CowDict {
    const base: CowDict?
    ghost const above: seq<CowDict>
    var plain: map<string, Plain>
    var mutables: map<string, Cell>

    /** The chain from this dictionary to the root. */
    ghost function Chain(): seq<CowDict> {
      [this] + above
    }

    ghost predicate Valid()
      reads Chain()
    {
      Linked(Chain()) && ApartMaps(Maps(Chain()))
    }

    constructor Root()
      ensures Valid() && base == null && above == [] && plain == map[] && mutables == map[]
    {
      base := null;
      above := [];
      plain, mutables := map[], map[];
    }

    /** A copy: nothing is copied yet. */
    constructor Overlay(base: CowDict)
      requires base.Valid()
      ensures Valid() && this.base == base && above == base.Chain() && plain == map[] && mutables == map[]
      ensures Levels(above) == old(Levels(base.Chain())) && Cells(Chain()) == old(Cells(base.Chain()))
      ensures LevelOf(this) == Level(map[], map[])
    {
      ghost var cells := Cells(base.Chain());
      this.base := base;
      above := base.Chain();
      plain, mutables := map[], map[];
      new;
      assert Maps(Chain()) == [map[]] + Maps(base.Chain());
      forall i | 0 <= i < |Chain()| ensures LinkedAt(Chain(), i) {
        if i > 0 {
          assert LinkedAt(base.Chain(), i - 1) && Chain()[i + 1..] == base.Chain()[i..];
        }
      }
    }

    /** Looks the key up in the attributes of the chain. */
    method GetPlain(key: string) returns (found: Option<Plain>)
      requires Valid()
      ensures Levels(Chain()) == old(Levels(Chain()))
      ensures found == NearestPlain(Levels(Chain()), key)
    {
      ghost var cells := Cells(Chain());
      var d: CowDict? := this;
      ghost var i := 0;
      while d != null
        invariant 0 <= i <= |Chain()| && d == if i < |Chain()| then Chain()[i] else null
        invariant NearestPlain(Levels(Chain()), key) == NearestPlain(Levels(Chain()[i..]), key)
        decreases |Chain()| - i
      {
        Unroll(Chain(), i);
        assert LinkedAt(Chain(), i);
        if key in d.plain {
          return Some(d.plain[key]);
        }
        d := d.base;
        i := i + 1;
      }
      return None;
    }

    /** Looks the key up among the sets of the chain. */
    method FindMutable(key: string) returns (cell: Cell?)
      requires Valid()
      ensures Levels(Chain()) == old(Levels(Chain()))
      ensures cell == null ==> NearestSet(Levels(Chain()), key) == None
      ensures cell != null ==> NearestSet(Levels(Chain()), key) == Some(cell.items)
      ensures key in mutables ==> cell == mutables[key]
    {
      ghost var cells := Cells(Chain());
      var d: CowDict? := this;
      ghost var i := 0;
      while d != null
        invariant 0 <= i <= |Chain()| && d == if i < |Chain()| then Chain()[i] else null
        invariant i > 0 ==> key !in mutables
        invariant NearestSet(Levels(Chain()), key) == NearestSet(Levels(Chain()[i..]), key)
        decreases |Chain()| - i
      {
        Unroll(Chain(), i);
        assert LinkedAt(Chain(), i);
        if key in d.mutables {
          return d.mutables[key];
        }
        d := d.base;
        i := i + 1;
      }
      return null;
    }

    /** Looks up a set; unless the caller promises not to change it, this dictionary gets a copy of its own. */
    method GetMutable(key: string, readonly: bool) returns (cell: Cell?)
      requires Valid()
      modifies `mutables
      ensures Valid() && Levels(above) == old(Levels(above))
      ensures cell == null ==> NearestSet(old(Levels(Chain())), key) == None && mutables == old(mutables)
      ensures cell != null ==> NearestSet(old(Levels(Chain())), key) == Some(cell.items)
      ensures cell != null && readonly ==> mutables == old(mutables)
      ensures cell != null && !readonly ==> mutables == old(mutables)[key := cell]
      ensures cell != null && !readonly && key !in old(mutables) ==> fresh(cell)
      ensures key in old(mutables) ==> cell == old(mutables)[key]
    {
      ghost var cells := Cells(above);
      cell := FindMutable(key);
      ghost var ms := Maps(Chain());
      NotAbove(this);
      if cell != null && !readonly && key !in mutables {
        cell := new Cell(cell.items);
        StillApart(ms, key, cell);
        mutables := mutables[key := cell];
        assert Maps(Chain()) == ms[0 := ms[0][key := cell]];
      }
    }

    method SetItem(key: string, value: Plain)
      requires Valid()
      modifies `plain
      ensures Valid() && Levels(above) == old(Levels(above))
      ensures LevelOf(this) == old(LevelOf(this)).(plain := old(plain)[key := value])
    {
      ghost var cells := Cells(above);
      NotAbove(this);
      ghost var ms := Maps(Chain());
      plain := plain[key := value];
      assert Maps(Chain()) == ms;
    }

    /** Binds a set that nothing in the chain holds yet. */
    method SetSet(key: string, cell: Cell)
      requires Valid() && forall d, k :: d in Chain() && k in d.mutables ==> d.mutables[k] != cell
      modifies `mutables
      ensures Valid() && Levels(above) == old(Levels(above))
      ensures mutables == old(mutables)[key := cell] && plain == old(plain)
    {
      ghost var cells := Cells(above);
      NotAbove(this);
      ghost var ms := Maps(Chain());
      assert forall i, k :: 0 <= i < |ms| && k in ms[i] ==> Chain()[i] in Chain();
      StillApart(ms, key, cell);
      mutables := mutables[key := cell];
      assert Maps(Chain()) == ms[0 := ms[0][key := cell]];
    }

    /** d[key] = set() */
    method SetNew(key: string)
      requires Valid()
      modifies `mutables
      ensures Valid() && Levels(above) == old(Levels(above)) && fresh(mutables.Values - old(mutables).Values)
      ensures LevelOf(this) == old(Given(this, key, {})) && plain == old(plain)
    {
      ghost var cells := Cells(above);
      var cell := new Cell({});
      SetSet(key, cell);
    }

    method GetItem(key: string, readonly: bool) returns (item: Item)
      requires Valid()
      modifies `mutables
      ensures Valid() && Levels(above) == old(Levels(above))
      ensures match Lookup(old(Levels(Chain())), key) {
                case Nothing => item == Missing && mutables == old(mutables)
                case Text(v) => item == Immutable(v) && mutables == old(mutables)
                case Items(s) =>
                  && item.Mutable? && item.cell.items == s
                  && mutables == (if readonly then old(mutables) else old(mutables)[key := item.cell])
                  && (!readonly && key !in old(mutables) ==> fresh(item.cell))
                  && (key in old(mutables) ==> item.cell == old(mutables)[key])
              }
    {
      ghost var cells := Cells(Chain());
      var found := GetPlain(key);
      if found.Some? {
        return if found.value.Deleted? then Missing else Immutable(found.value.text);
      }
      var cell := GetMutable(key, readonly);
      return if cell == null then Missing else Mutable(cell);
    }

    method DelItem(key: string)
      requires Valid()
      modifies `plain
      ensures Valid() && Levels(above) == old(Levels(above))
      ensures Lookup(Levels(Chain()), key) == Nothing
      ensures LevelOf(this) == old(LevelOf(this)).(plain := old(plain)[key := Deleted])
    {
      SetItem(key, Deleted);
      Unroll(Chain(), 0);
    }

    /** Adds to the set of a key: d[key].add(x). */
    method Add(key: string, x: string)
      requires Valid() && Lookup(Levels(Chain()), key).Items?
      modifies this, mutables.Values
      ensures Valid() && Levels(above) == old(Levels(above))
      ensures LevelOf(this) == old(Given(this, key, Lookup(Levels(Chain()), key).items + {x}))
      ensures plain == old(plain) && fresh(mutables.Values - old(mutables).Values)
    {
      var item := GetItem(key, false);
      OwnCell(this, key);
      item.cell.items := item.cell.items + {x};
    }

    /** Removes from the set of a key: d[key].remove(x). */
    method Remove(key: string, x: string)
      requires Valid() && Lookup(Levels(Chain()), key).Items?
      modifies this, mutables.Values
      ensures Valid() && Levels(above) == old(Levels(above))
      ensures LevelOf(this) == old(Given(this, key, Lookup(Levels(Chain()), key).items - {x}))
      ensures plain == old(plain) && fresh(mutables.Values - old(mutables).Values)
    {
      var item := GetItem(key, false);
      OwnCell(this, key);
      item.cell.items := item.cell.items - {x};
    }

    method HasKey(key: string) returns (has: bool)
      requires Valid()
      ensures Levels(above) == old(Levels(above)) && LevelOf(this) == old(LevelOf(this))
      ensures has <==> Lookup(Levels(Chain()), key) != Nothing
    {
      ghost var cells, others := Cells(Chain()), Cells(above);
      var found := GetPlain(key);
      if found.Some? {
        return !found.value.Deleted?;
      }
      var cell := FindMutable(key);
      return cell != null;
    }
  }

  /** Binding a new set keeps the bindings apart. */
  lemma StillApart(ms: seq<map<string, Cell>>, key: string, cell: Cell)
    requires ApartMaps(ms) && ms != []
    requires forall i, k :: 0 <= i < |ms| && k in ms[i] ==> ms[i][k] != cell
    ensures ApartMaps(ms[0 := ms[0][key := cell]])
  {
  }

  /** No dictionary is its own ancestor. */
  lemma Unlooped(ds: seq<CowDict>)
    requires Linked(ds)
    ensures forall i, j :: 0 <= i < j < |ds| ==> ds[i] != ds[j]
  {
    forall i, j | 0 <= i < j < |ds| ensures ds[i] != ds[j] {
      assert LinkedAt(ds, i) && LinkedAt(ds, j);
    }
  }

  lemma NotAbove(d: CowDict)
    requires d.Valid()
    ensures d !in d.above
    ensures forall i :: 0 < i < |d.Chain()| ==> d.Chain()[i] != d
  {
    Unlooped(d.Chain());
    forall j | 0 <= j < |d.above| ensures d.above[j] != d {
      assert d.above[j] == d.Chain()[j + 1] && d.Chain()[0] == d;
    }
  }

  /** The level of a dictionary after the key is bound to the given set. */
  ghost function Given(d: CowDict, key: string, items: set<string>): Level
    reads d, d.mutables.Values
  {
    var l := LevelOf(d);
    l.(sets := l.sets[key := items])
  }

  /** Changing a set of one's own changes nothing else. */
  lemma OwnCell(d: CowDict, key: string)
    requires d.Valid() && key in d.mutables
    ensures d.mutables[key] !in Cells(d.above)
    ensures forall k :: k in d.mutables && k != key ==> d.mutables[k] != d.mutables[key]
  {
    var ms := Maps(d.Chain());
    assert ms[0] == d.mutables;
    forall j, k | 0 <= j < |d.above| && k in d.above[j].mutables ensures d.above[j].mutables[k] != d.mutables[key] {
      assert ms[j + 1] == d.above[j].mutables;
    }
    forall k | k in d.mutables && k != key ensures d.mutables[k] != d.mutables[key] {
      assert ms[0][k] != ms[0][key];
    }
  }

  lemma Unroll(ds: seq<CowDict>, i: nat)
    requires i < |ds|
    ensures Levels(ds[i..]) == [LevelOf(ds[i])] + Levels(ds[i + 1..])
  {
    assert ds[i..][1..] == ds[i + 1..];
  }

  /** Each dictionary of the chain is based on the next. */
  ghost predicate Linked(ds: seq<CowDict>) {
    forall i :: 0 <= i < |ds| ==> LinkedAt(ds, i)
  }

  ghost predicate LinkedAt(ds: seq<CowDict>, i: int)
    requires 0 <= i < |ds|
  {
    ds[i].above == ds[i + 1..] && ds[i].base == if i + 1 < |ds| then ds[i + 1] else null
  }

  ghost function Maps(ds: seq<CowDict>): seq<map<string, Cell>>
    reads ds
  {
    seq(|ds|, i requires 0 <= i < |ds| reads ds => ds[i].mutables)
  }

  /** No two bindings of the chain share a set object. */
  ghost predicate ApartMaps(ms: seq<map<string, Cell>>) {
    forall i, j, k, l ::
        0 <= i < |ms| && 0 <= j < |ms| && k in ms[i] && l in ms[j] && (i != j || k != l) ==> ms[i][k] != ms[j][l]
  }

  ghost function LevelOf(d: CowDict): Level
    reads d, d.mutables.Values
  {
    Level(d.plain, map k | k in d.mutables :: d.mutables[k].items)
  }

  ghost function Cells(ds: seq<CowDict>): set<Cell>
    reads ds
  {
    set d, k | d in ds && k in d.mutables :: d.mutables[k]
  }

  ghost function Levels(ds: seq<CowDict>): seq<Level>
    reads ds, Cells(ds)
  {
    if ds == [] then [] else [LevelOf(ds[0])] + Levels(ds[1..])
  }

  /** A set in a copy, behind it an immutable value in the base: the copy answers with the value. */
  method MaskedSet() returns (d: CowDict, item: Item)
    ensures d.Valid() && "k" in LevelOf(d).sets && Nearest(Levels(d.Chain()), "k") == Items({})
    ensures item == Immutable("v") && Lookup(Levels(d.Chain()), "k") == Text("v")
  {
    hide ApartMaps;
    hide Linked;
    hide Levels;
    hide LevelOf;
    var base := new CowDict.Root();
    RootLevels(base);
    base.SetItem("k", Value("v"));
    OwnLevel(base);
    ghost var below := Level(map["k" := Value("v")], map[]);
    assert Levels(base.Chain()) == [below];
    d := new CowDict.Overlay(base);
    GivenLevel(d, "k", {});
    d.SetNew("k");
    OwnLevel(d);
    ghost var ls := [Level(map[], map["k" := {}]), below];
    assert Levels(d.Chain()) == ls;
    MaskedLookup(below);
    hide Lookup;
    hide Nearest;
    item := d.GetItem("k", true);
    OwnLevel(d);
  }

  lemma MaskedLookup(below: Level)
    requires below == Level(map["k" := Value("v")], map[])
    ensures var ls := [Level(map[], map["k" := {}]), below];
      Lookup(ls, "k") == Text("v") && Nearest(ls, "k") == Items({})
  {
    var ls := [Level(map[], map["k" := {}]), below];
    assert ls[1..] == [below];
    assert NearestPlain([below], "k") == Some(Value("v"));
    assert NearestPlain(ls, "k") == NearestPlain(ls[1..], "k");
  }

  lemma OwnLevel(d: CowDict)
    ensures Levels(d.Chain()) == [LevelOf(d)] + Levels(d.above)
  {
    Unroll(d.Chain(), 0);
  }

  lemma GivenLevel(d: CowDict, key: string, s: set<string>)
    ensures Given(d, key, s) == LevelOf(d).(sets := LevelOf(d).sets[key := s])
  {
  }

  lemma RootLevels(d: CowDict)
    requires d.above == [] && d.plain == map[] && d.mutables == map[]
    ensures Levels(d.above) == [] && LevelOf(d) == Level(map[], map[])
  {
  }
}
