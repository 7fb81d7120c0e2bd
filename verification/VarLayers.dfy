/**
 * Layers of variables and their flags: a layer shadows a variable, by a copy
 * of its flags, before changing it.
 */
module VarLayers {
  import opened Options

  /**
   * A value to append or prepend, and the override that it waits for; or a letter of a text that a
   * list was extended by.
   */
  datatype Pending = Pending(value: Flag, add: Option<string>) | Letter(c: char)

  /** A list object, shared by reference. */
  class ListBox {
    var items: seq<Pending>

    constructor (items: seq<Pending>)
      ensures this.items == items
    {
      this.items := items;
    }
  }

  datatype Flag = Words(text: string) | List(box: ListBox)

  type Flags = map<string, Flag>

  class Entry {
    var flags: Flags

    constructor (flags: Flags)
      ensures this.flags == flags
    {
      this.flags := flags;
    }
  }

  // ----- layers as values, the nearest first

  type Vars = map<string, Flags>

  /** The flags of a variable in the nearest layer that has it; a deleted variable has none. */
  ghost function Find(view: seq<Vars>, name: string): Option<Flags> {
    if view == [] then None
    else if name in view[0] then Some(view[0][name])
    else Find(view[1..], name)
  }

  ghost function FlagsOf(view: seq<Vars>, name: string): Flags {
    match Find(view, name)
    case Some(f) => f
    case None => map[]
  }

  ghost function FlagOf(view: seq<Vars>, name: string, flag: string, noWeakDefault: bool): Option<Flag> {
    var f := FlagsOf(view, name);
    if flag in f then Some(f[flag])
    else if flag == "content" && "defaultval" in f && !noWeakDefault then Some(f["defaultval"])
    else None
  }

  ghost function WithoutFlag(own: Vars, name: string, seen: Flags, flag: string): Vars {
    if seen == map[] then own else own[name := seen - {flag}]
  }

  ghost function WithoutFlags(own: Vars, name: string, seen: Flags): Vars {
    if "content" in seen then own[name := map["content" := seen["content"]]] else own - {name}
  }

  ghost function BoxOf(f: Option<Flag>): set<ListBox> {
    if f.Some? && f.value.List? then {f.value.box} else {}
  }

  ghost function Listed(f: Option<Flag>): seq<Pending>
    reads BoxOf(f)
  {
    if f.Some? && f.value.List? then f.value.box.items else []
  }

  ghost function Letters(text: string): seq<Pending> {
    seq(|text|, i requires 0 <= i < |text| => Letter(text[i]))
  }

  /** What a list is extended by: the items of a list, the letters of a text. */
  ghost function ItemsOf(f: Option<Flag>): seq<Pending>
    reads BoxOf(f)
  {
    match f
    case None => []
    case Some(Words(w)) => Letters(w)
    case Some(List(b)) => b.items
  }

  // ----- layers as objects

  class Layer {
    const data: Layer?
    ghost const above: seq<Layer>
    var vars: map<string, Entry>

    ghost function Chain(): seq<Layer> {
      [this] + above
    }

    ghost predicate Valid()
      reads Chain()
    {
      Linked(Chain()) && ApartMaps(Maps(Chain()))
    }

    constructor Root()
      ensures Valid() && data == null && above == [] && vars == map[]
    {
      data := null;
      above := [];
      vars := map[];
    }

    constructor Overlay(data: Layer)
      requires data.Valid()
      ensures Valid() && this.data == data && above == data.Chain() && vars == map[]
      ensures View(above) == old(View(data.Chain())) && View(Chain()) == [map[]] + old(View(data.Chain()))
    {
      ghost var entries := Entries(data.Chain());
      this.data := data;
      above := data.Chain();
      vars := map[];
      new;
      assert Maps(Chain()) == [map[]] + Maps(data.Chain());
      forall i | 0 <= i < |Chain()| ensures LinkedAt(Chain(), i) {
        if i > 0 {
          assert LinkedAt(data.Chain(), i - 1) && Chain()[i + 1..] == data.Chain()[i..];
        }
      }
    }

    method FindVar(name: string) returns (entry: Entry?)
      requires Valid()
      ensures View(Chain()) == old(View(Chain())) && View(above) == old(View(above)) && Own(this) == old(Own(this))
      ensures entry == null ==> Find(View(Chain()), name) == None
      ensures entry != null ==> Find(View(Chain()), name) == Some(entry.flags)
      ensures name in vars ==> entry == vars[name]
    {
      ghost var entries, others := Entries(Chain()), Entries(above);
      var dest: Layer? := this;
      ghost var i := 0;
      while dest != null
        invariant 0 <= i <= |Chain()| && dest == if i < |Chain()| then Chain()[i] else null
        invariant i > 0 ==> name !in vars
        invariant Find(View(Chain()), name) == Find(View(Chain()[i..]), name)
        decreases |Chain()| - i
      {
        Unroll(Chain(), i);
        assert LinkedAt(Chain(), i);
        if name in dest.vars {
          return dest.vars[name];
        }
        dest := dest.data;
        i := i + 1;
      }
      return null;
    }

    /** Enters a new entry into this layer. */
    method Bind(name: string, entry: Entry)
      requires Valid() && forall l, k :: l in Chain() && k in l.vars ==> l.vars[k] != entry
      modifies `vars
      ensures Valid() && View(above) == old(View(above))
      ensures vars == old(vars)[name := entry] && Own(this) == old(Own(this)[name := entry.flags])
    {
      ghost var entries := Entries(above);
      NotAbove(this);
      ghost var ms := Maps(Chain());
      assert forall i, k :: 0 <= i < |ms| && k in ms[i] ==> Chain()[i] in Chain();
      StillApart(ms, name, entry);
      vars := vars[name := entry];
      assert Maps(Chain()) == ms[0 := ms[0][name := entry]];
    }

    /** Gives this layer an entry of its own for the variable, with the flags seen so far. */
    method MakeShadowCopy(name: string)
      requires Valid()
      modifies `vars
      ensures Valid() && View(above) == old(View(above))
      ensures name in vars && vars == old(vars)[name := vars[name]]
      ensures if name in old(vars) then vars == old(vars) else fresh(vars[name])
      ensures fresh(vars.Values - old(vars).Values)
      ensures vars[name].flags == FlagsOf(old(View(Chain())), name)
      ensures Own(this) == old(Own(this)[name := FlagsOf(View(Chain()), name)])
    {
      ghost var others := Entries(above);
      var localVar := FindVar(name);
      hide ApartMaps;
      hide Linked;
      if name in vars {
        Unroll(Chain(), 0);
        return;
      }
      var entry := new Entry(if localVar != null && localVar.flags != map[] then localVar.flags else map[]);
      Bind(name, entry);
    }

    /** Changes the flags of an entry of this layer in place. */
    method Edit(name: string, flags: Flags)
      requires Valid() && name in vars
      modifies vars[name]
      ensures Valid() && View(above) == old(View(above))
      ensures Own(this) == old(Own(this))[name := flags]
    {
      ghost var entries := Entries(above);
      OwnEntry(this, name);
      vars[name].flags := flags;
    }

    /** self.dict[var][flag] = value, after shadowing. */
    method SetFlag(name: string, flag: string, value: Flag)
      requires Valid()
      modifies this, vars.Values
      ensures Valid() && View(above) == old(View(above)) && fresh(vars.Values - old(vars).Values)
      ensures Own(this) == old(Own(this)[name := FlagsOf(View(Chain()), name)[flag := value]])
    {
      MakeShadowCopy(name);
      Edit(name, vars[name].flags[flag := value]);
    }

    /** self.dict[var] = {} */
    method Clear(name: string)
      requires Valid()
      modifies `vars
      ensures Valid() && View(above) == old(View(above)) && fresh(vars.Values - old(vars).Values)
      ensures Own(this) == old(Own(this)[name := map[]]) && name in vars && fresh(vars[name])
    {
      ghost var entries := Entries(above);
      var entry := new Entry(map[]);
      Bind(name, entry);
    }

    /** Deletes a flag of a variable that has any. */
    method DelFlag(name: string, flag: string)
      requires Valid()
      modifies this, vars.Values
      ensures Valid() && View(above) == old(View(above)) && fresh(vars.Values - old(vars).Values)
      ensures Own(this) == old(WithoutFlag(Own(this), name, FlagsOf(View(Chain()), name), flag))
    {
      ghost var f := FlagsOf(View(Chain()), name);
      var localVar := FindVar(name);
      assert f == if localVar == null then map[] else localVar.flags;
      hide FlagsOf;
      hide View;
      hide Own;
      hide ApartMaps;
      hide Linked;
      if localVar != null && localVar.flags != map[] {
        UnsetFlag(name, flag);
      }
    }

    /** Deletes a flag of this layer's entry, after shadowing. */
    method UnsetFlag(name: string, flag: string)
      requires Valid()
      modifies this, vars.Values
      ensures Valid() && View(above) == old(View(above)) && fresh(vars.Values - old(vars).Values)
      ensures Own(this) == old(Own(this)[name := FlagsOf(View(Chain()), name) - {flag}])
    {
      hide FlagsOf;
      hide View;
      hide Own;
      hide ApartMaps;
      hide Linked;
      MakeShadowCopy(name);
      if flag in vars[name].flags {
        Edit(name, vars[name].flags - {flag});
      } else {
        assert vars[name].flags - {flag} == vars[name].flags;
      }
    }

    /**
     * Deletes every flag but the content; without content, the entry of this layer goes and what it
     * shadowed comes back.
     */
    method DelFlags(name: string)
      requires Valid()
      modifies this, vars.Values
      ensures Valid() && View(above) == old(View(above)) && fresh(vars.Values - old(vars).Values)
      ensures Own(this) == old(WithoutFlags(Own(this), name, FlagsOf(View(Chain()), name)))
    {
      hide FlagsOf;
      hide View;
      hide Own;
      hide ApartMaps;
      hide Linked;
      MakeShadowCopy(name);
      if "content" in vars[name].flags {
        var content := vars[name].flags["content"];
        KeepOnly(name, content);
      } else {
        Drop(name);
      }
    }

    method KeepOnly(name: string, content: Flag)
      requires Valid()
      modifies `vars
      ensures Valid() && View(above) == old(View(above)) && fresh(vars.Values - old(vars).Values)
      ensures Own(this) == old(Own(this)[name := map["content" := content]])
    {
      hide Own;
      hide ApartMaps;
      hide Linked;
      Clear(name);
      Edit(name, map["content" := content]);
    }

    /** del self.dict[var] */
    method Drop(name: string)
      requires Valid()
      modifies `vars
      ensures Valid() && View(above) == old(View(above)) && vars == old(vars) - {name}
      ensures Own(this) == old(Own(this)) - {name}
    {
      ghost var entries := Entries(above);
      NotAbove(this);
      ghost var ms := Maps(Chain());
      vars := vars - {name};
      assert Maps(Chain()) == ms[0 := ms[0] - {name}];
    }

    /** A flag of the nearest entry; a list is copied first. */
    method GetFlag(name: string, flag: string, noWeakDefault: bool) returns (value: Option<Flag>)
      requires Valid()
      ensures View(Chain()) == old(View(Chain())) && View(above) == old(View(above)) && Own(this) == old(Own(this))
      ensures match FlagOf(View(Chain()), name, flag, noWeakDefault) {
                case None => value == None
                case Some(Words(w)) => value == Some(Words(w))
                case Some(List(_)) => value.Some? && value.value.List? && fresh(value.value.box)
              }
      ensures Listed(value) == old(Listed(FlagOf(View(Chain()), name, flag, noWeakDefault)))
    {
      ghost var entries, others := Entries(Chain()), Entries(above);
      Boxed(Chain(), name, flag, noWeakDefault);
      hide ApartMaps;
      hide Linked;
      hide View;
      value := None;
      var localVar := FindVar(name);
      if localVar != null {
        if flag in localVar.flags {
          value := CopyOf(localVar.flags[flag]);
        } else if flag == "content" && "defaultval" in localVar.flags && !noWeakDefault {
          value := CopyOf(localVar.flags["defaultval"]);
        }
      }
    }
  }

  /** The list under a flag, copied; a new one if there is none. */
  method ListCopy(layer: Layer, name: string, flag: string) returns (box: ListBox)
    requires layer.Valid()
    ensures View(layer.Chain()) == old(View(layer.Chain())) && View(layer.above) == old(View(layer.above))
      && Own(layer) == old(Own(layer))
    ensures fresh(box) && box.items == old(Listed(FlagOf(View(layer.Chain()), name, flag, false)))
  {
    hide ApartMaps;
    hide Linked;
    hide FlagOf;
    hide View;
    hide Own;
    ghost var entries, others := Entries(layer.Chain()), Entries(layer.above);
    var list := layer.GetFlag(name, flag, false);
    if list.Some? && list.value.List? && list.value.box.items != [] {
      box := list.value.box;
    } else {
      box := new ListBox([]);
    }
  }

  /** The list under a flag, copied, with one more pair. */
  method Extended(layer: Layer, name: string, flag: string, pair: Pending) returns (box: ListBox)
    requires layer.Valid()
    ensures View(layer.Chain()) == old(View(layer.Chain())) && View(layer.above) == old(View(layer.above))
      && Own(layer) == old(Own(layer))
    ensures fresh(box) && box.items == old(Listed(FlagOf(View(layer.Chain()), name, flag, false))) + [pair]
  {
    hide ApartMaps;
    hide Linked;
    hide FlagOf;
    hide View;
    hide Own;
    ghost var entries, others := Entries(layer.Chain()), Entries(layer.above);
    box := ListCopy(layer, name, flag);
    box.items := box.items + [pair];
  }

  /** The list under one flag, copied, extended by the list under the same flag of another variable. */
  method Joined(layer: Layer, key: string, newKey: string, flag: string) returns (box: ListBox?)
    requires layer.Valid()
    ensures View(layer.Chain()) == old(View(layer.Chain()))
    ensures box == null <==> FlagOf(View(layer.Chain()), key, flag, false) == None
    ensures box != null ==> fresh(box)
    ensures box != null ==>
              box.items == old(Listed(FlagOf(View(layer.Chain()), newKey, flag, false))
                + ItemsOf(FlagOf(View(layer.Chain()), key, flag, false)))
  {
    Boxed(layer.Chain(), newKey, flag, false);
    hide ApartMaps;
    hide Linked;
    hide FlagOf;
    hide View;
    hide Own;
    ghost var entries := Entries(layer.Chain());
    ghost var dest0 := Listed(FlagOf(View(layer.Chain()), newKey, flag, false));
    var src := layer.GetFlag(key, flag, false);
    assert Listed(FlagOf(View(layer.Chain()), newKey, flag, false)) == dest0;
    if src == None {
      return null;
    }
    box := ListCopy(layer, newKey, flag);
    match src.value {
      case List(b) => box.items := box.items + b.items;
      case Words(w) => Spell(box, w);
    }
  }

  /** Extends a list by the letters of a text. */
  method Spell(box: ListBox, text: string)
    modifies box
    ensures box.items == old(box.items) + Letters(text)
  {
    for k := 0 to |text|
      invariant box.items == old(box.items) + Letters(text)[..k]
    {
      box.items := box.items + [Letter(text[k])];
    }
  }

  /** copy.copy: strings are shared, lists get a new object. */
  method CopyOf(flag: Flag) returns (copy: Option<Flag>)
    ensures match flag {
              case Words(w) => copy == Some(Words(w))
              case List(b) => copy.Some? && copy.value.List? && fresh(copy.value.box) && copy.value.box.items == b.items
            }
  {
    match flag {
      case Words(w) => copy := Some(Words(w));
      case List(b) =>
        var box := new ListBox(b.items);
        copy := Some(List(box));
    }
  }

  ghost predicate Linked(ls: seq<Layer>) {
    forall i :: 0 <= i < |ls| ==> LinkedAt(ls, i)
  }

  ghost predicate LinkedAt(ls: seq<Layer>, i: int)
    requires 0 <= i < |ls|
  {
    ls[i].above == ls[i + 1..] && ls[i].data == if i + 1 < |ls| then ls[i + 1] else null
  }

  ghost function Maps(ls: seq<Layer>): seq<map<string, Entry>>
    reads ls
  {
    seq(|ls|, i requires 0 <= i < |ls| reads ls => ls[i].vars)
  }

  /** No two variables of the chain share an entry. */
  ghost predicate ApartMaps(ms: seq<map<string, Entry>>) {
    forall i, j, k, l ::
        0 <= i < |ms| && 0 <= j < |ms| && k in ms[i] && l in ms[j] && (i != j || k != l) ==> ms[i][k] != ms[j][l]
  }

  lemma StillApart(ms: seq<map<string, Entry>>, name: string, entry: Entry)
    requires ApartMaps(ms) && ms != []
    requires forall i, k :: 0 <= i < |ms| && k in ms[i] ==> ms[i][k] != entry
    ensures ApartMaps(ms[0 := ms[0][name := entry]])
  {
  }

  ghost function Entries(ls: seq<Layer>): set<Entry>
    reads ls
  {
    set l, k | l in ls && k in l.vars :: l.vars[k]
  }

  ghost function Own(l: Layer): Vars
    reads l, l.vars.Values
  {
    map k | k in l.vars :: l.vars[k].flags
  }

  ghost function View(ls: seq<Layer>): seq<Vars>
    reads ls, Entries(ls)
  {
    if ls == [] then [] else [Own(ls[0])] + View(ls[1..])
  }

  lemma Unroll(ls: seq<Layer>, i: nat)
    requires i < |ls|
    ensures View(ls[i..]) == [Own(ls[i])] + View(ls[i + 1..])
  {
    assert ls[i..][1..] == ls[i + 1..];
  }

  /** What a lookup finds is the flags of some entry. */
  lemma {:induction false} Found(ls: seq<Layer>, name: string)
    requires Find(View(ls), name).Some?
    ensures exists l :: l in ls && name in l.vars && l.vars[name].flags == Find(View(ls), name).value
  {
    Unroll(ls, 0);
    if name !in ls[0].vars {
      Found(ls[1..], name);
      assert ls[0..] == ls && View(ls)[1..] == View(ls[1..]);
    } else {
      assert ls[0] in ls;
    }
  }

  /** So the list that a lookup finds exists already. */
  lemma Boxed(ls: seq<Layer>, name: string, flag: string, noWeakDefault: bool)
    ensures var f := FlagOf(View(ls), name, flag, noWeakDefault); f.Some? && f.value.List? ==> allocated(f.value.box)
  {
    if Find(View(ls), name).Some? {
      Found(ls, name);
    }
  }

  lemma Split(l: Layer)
    ensures View(l.Chain()) == [Own(l)] + View(l.above)
  {
    Unroll(l.Chain(), 0);
  }

  lemma NotAbove(l: Layer)
    requires l.Valid()
    ensures l !in l.above
    ensures forall i :: 0 < i < |l.Chain()| ==> l.Chain()[i] != l
  {
    var ls := l.Chain();
    forall i, j | 0 <= i < j < |ls| ensures ls[i] != ls[j] {
      assert LinkedAt(ls, i) && LinkedAt(ls, j);
    }
    forall j | 0 <= j < |l.above| ensures l.above[j] != l {
      assert l.above[j] == ls[j + 1] && ls[0] == l;
    }
  }

  lemma OwnEntry(l: Layer, name: string)
    requires l.Valid() && name in l.vars
    ensures l.vars[name] !in Entries(l.above)
    ensures forall k :: k in l.vars && k != name ==> l.vars[k] != l.vars[name]
  {
    var ms := Maps(l.Chain());
    assert ms[0] == l.vars;
    forall j, k | 0 <= j < |l.above| && k in l.above[j].vars ensures l.above[j].vars[k] != l.vars[name] {
      assert ms[j + 1] == l.above[j].vars;
    }
    forall k | k in l.vars && k != name ensures l.vars[k] != l.vars[name] {
      assert ms[0][k] != ms[0][name];
    }
  }

  // ----- what is left after all flags are deleted

  lemma OwnFirst(own: Vars, above: seq<Vars>, name: string)
    ensures FlagsOf([own] + above, name) == if name in own then own[name] else FlagsOf(above, name)
  {
    assert ([own] + above)[1..] == above;
  }

  /** The flags of a variable after deleting all flags. */
  ghost function Left(own: Vars, above: seq<Vars>, name: string): Flags {
    FlagsOf([WithoutFlags(own, name, FlagsOf([own] + above, name))] + above, name)
  }

  /** A deleted flag is not seen any more, in whatever layer it was; the other flags and variables are. */
  lemma FlagDeleted(own: Vars, above: seq<Vars>, name: string, flag: string)
    ensures var (before, after) := ([own] + above,
        [WithoutFlag(own, name, FlagsOf([own] + above, name), flag)] + above);
      && FlagsOf(after, name) == FlagsOf(before, name) - {flag}
      && forall n :: n != name ==> Find(after, n) == Find(before, n)
  {
    OwnFirst(own, above, name);
    OwnFirst(WithoutFlag(own, name, FlagsOf([own] + above, name), flag), above, name);
    forall n | n != name ensures Find([WithoutFlag(own, name, FlagsOf([own] + above, name), flag)] + above, n)
      == Find([own] + above, n)
    {
      OwnFirst(own, above, n);
      OwnFirst(WithoutFlag(own, name, FlagsOf([own] + above, name), flag), above, n);
    }
  }

  /** Only content has a default: the weak one, where there is no content and the caller does not refuse it. */
  lemma WeakDefault(view: seq<Vars>, name: string, flag: string, noWeakDefault: bool)
    ensures var flags := FlagsOf(view, name);
      && (flag in flags ==> FlagOf(view, name, flag, noWeakDefault) == Some(flags[flag]))
      && (flag !in flags && flag == "content" && !noWeakDefault && "defaultval" in flags ==>
            FlagOf(view, name, flag, noWeakDefault) == Some(flags["defaultval"]))
      && (flag !in flags && (flag != "content" || noWeakDefault || "defaultval" !in flags) ==>
            FlagOf(view, name, flag, noWeakDefault) == None)
  {
  }

  /** Deleted flags stay deleted exactly if the variable has content, or the layers above have no other flag for it. */
  lemma FlagsStayDeleted(own: Vars, above: seq<Vars>, name: string)
    ensures Left(own, above, name).Keys <= {"content"} <==>
      "content" in FlagsOf([own] + above, name) || FlagsOf(above, name).Keys <= {"content"}
  {
    var seen := FlagsOf([own] + above, name);
    OwnFirst(WithoutFlags(own, name, seen), above, name);
  }

  /** The variable has the same content as before, or none as before. */
  ghost predicate SameContent(before: Flags, after: Flags) {
    && ("content" in after <==> "content" in before)
    && ("content" in before ==> after["content"] == before["content"])
  }

  /** The content stays what it was exactly if there is one, or the layers above have none that the own entry hid. */
  lemma ContentStays(own: Vars, above: seq<Vars>, name: string)
    ensures SameContent(FlagsOf([own] + above, name), Left(own, above, name)) <==>
      "content" in FlagsOf([own] + above, name) || "content" !in FlagsOf(above, name)
  {
    var seen := FlagsOf([own] + above, name);
    OwnFirst(WithoutFlags(own, name, seen), above, name);
  }

  /**
   * Deleting the flags of a variable without content in a copy: the flag set in the copy goes, and the
   * base's is seen again.
   */
  method FlagsComeBack() returns (copy: Layer)
    ensures copy.Valid() && "v" !in Own(copy)
    ensures FlagOf(View(copy.Chain()), "v", "doc", false) == Some(Words("text"))
    ensures FlagOf(View(copy.Chain()), "v", "task", false) == None
  {
    hide ApartMaps;
    hide Linked;
    hide View;
    hide Own;
    var base := new Layer.Root();
    EmptyRoot(base);
    FlagsBehind(map["v" := map["doc" := Words("text")]]);
    base.SetFlag("v", "doc", Words("text"));
    Split(base);
    ghost var below := map["v" := map["doc" := Words("text")]];
    assert View(base.Chain()) == [below];
    copy := new Layer.Overlay(base);
    Split(copy);
    ghost var view := [map[], below];
    assert View(copy.Chain()) == view && view[1..] == [below];
    copy.SetFlag("v", "task", Words("1"));
    Split(copy);
    ghost var both := map["doc" := Words("text"), "task" := Words("1")];
    assert Own(copy) == map["v" := both];
    copy.DelFlags("v");
    Split(copy);
    assert Own(copy) == map[];
    assert View(copy.Chain()) == view;
  }

  /**
   * A variable deleted in a copy, and then its flags: the base's content of the
   * deleted variable is seen again.
   */
  method ContentComesBack() returns (copy: Layer, ghost deleted: Option<Flag>)
    ensures copy.Valid() && deleted == None
    ensures FlagOf(View(copy.Chain()), "v", "content", false) == Some(Words("text"))
  {
    hide ApartMaps;
    hide Linked;
    hide View;
    hide Own;
    var base := new Layer.Root();
    EmptyRoot(base);
    FlagsBehind(map["v" := map["content" := Words("text")]]);
    base.SetFlag("v", "content", Words("text"));
    Split(base);
    ghost var below := map["v" := map["content" := Words("text")]];
    assert View(base.Chain()) == [below];
    copy := new Layer.Overlay(base);
    Split(copy);
    ghost var view := [map[], below];
    assert View(copy.Chain()) == view && view[1..] == [below];
    copy.Clear("v");
    Split(copy);
    deleted := FlagOf(View(copy.Chain()), "v", "content", false);
    copy.DelFlags("v");
    Split(copy);
    assert Own(copy) == map[];
    assert View(copy.Chain()) == view;
  }

  lemma FlagsBehind(below: Vars)
    ensures FlagsOf([map[]], "v") == map[]
    ensures FlagsOf([map[], below], "v") == if "v" in below then below["v"] else map[]
  {
    var nothing: Vars := map[];
    assert [nothing][1..] == [];
    assert [nothing, below][1..] == [below] && [below][1..] == [];
    assert Find([nothing, below], "v") == Find([below], "v");
  }

  lemma EmptyRoot(l: Layer)
    requires l.above == [] && l.vars == map[]
    ensures View(l.Chain()) == [map[]] && View(l.above) == [] && Own(l) == map[]
  {
    Split(l);
  }
}
