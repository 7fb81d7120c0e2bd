/** Stores as objects: nothing done to a copy shows in any store that existed before it. */
module StoreCopies {
  import opened Options
  import opened DataStore
  import V = VarLayers
  import C = CowDict

  /** Every object on which the answers of a store depend, those of the stores it was copied from included. */
  ghost function Footprint(d: DataSmart): set<object>
    reads d.dict.Chain(), d.seen.Chain(), d.special.Chain()
  {
    (set l | l in d.dict.Chain() :: l as object) + (set e | e in V.Entries(d.dict.Chain()) :: e as object)
    + TrackerParts(d.seen) + TrackerParts(d.special)
  }

  ghost function TrackerParts(t: C.CowDict): set<object>
    reads t.Chain()
  {
    (set d | d in t.Chain() :: d as object) + (set c | c in C.Cells(t.Chain()) :: c as object)
  }

  /** The store depends on objects in all only. */
  ghost predicate Covers(d: DataSmart, all: set<object>)
    reads all
  {
    && (forall l :: l in d.dict.Chain() ==> l in all)
    && (forall t :: t in d.seen.Chain() ==> t in all) && (forall t :: t in d.special.Chain() ==> t in all)
    && Footprint(d) <= all
  }

  /** All that can be observed of a store. */
  datatype Sight = Sight(store: Store, valid: bool)

  ghost function SightOf(d: DataSmart, all: set<object>): Sight
    requires Covers(d, all)
    reads all
  {
    Own(d);
    OwnTracker(d.seen);
    OwnTracker(d.special);
    Sight(d.Now(), d.Valid())
  }

  lemma Own(d: DataSmart)
    ensures d.dict in Footprint(d) && d.seen in Footprint(d) && d.special in Footprint(d)
    ensures (forall l :: l in d.dict.Chain() ==> l in Footprint(d)) && forall l ::
      l in d.dict.above ==> l in Footprint(d)
    ensures forall e :: e in V.Entries(d.dict.above) || e in d.dict.vars.Values ==> e in Footprint(d)
    ensures forall c :: c in TrackerParts(d.seen) || c in TrackerParts(d.special) ==> c in Footprint(d)
  {
    assert d.dict in d.dict.Chain() && d.seen in d.seen.Chain() && d.special in d.special.Chain();
    forall e | e in V.Entries(d.dict.above) || e in d.dict.vars.Values ensures e in V.Entries(d.dict.Chain()) {
      if e in V.Entries(d.dict.above) {
        var l, k :| l in d.dict.above && k in l.vars && l.vars[k] == e;
        assert l in d.dict.Chain();
      }
    }
    assert forall l :: l in d.dict.above ==> l in d.dict.Chain();
  }

  lemma OwnTracker(t: C.CowDict)
    ensures t in TrackerParts(t)
    ensures (forall d :: d in t.Chain() ==> d in TrackerParts(t)) && forall d :: d in t.above ==> d in TrackerParts(t)
    ensures forall c ::
      c in C.Cells(t.above) || c in t.mutables.Values || c in C.Cells(t.Chain()) ==> c in TrackerParts(t)
  {
    assert t in t.Chain();
    assert forall d :: d in t.above ==> d in t.Chain();
    forall c | c in C.Cells(t.above) || c in t.mutables.Values ensures c in C.Cells(t.Chain()) {
      if c in C.Cells(t.above) {
        var d, k :| d in t.above && k in d.mutables && d.mutables[k] == c;
        assert d in t.Chain();
      }
    }
  }

  /** The stores in others depend on objects in all only. */
  ghost predicate AllCovered(others: set<DataSmart>, all: set<object>)
    reads all
  {
    forall d :: d in others ==> Covers(d, all)
  }

  lemma FootprintExists(d: DataSmart)
    ensures forall x :: x in Footprint(d) ==> allocated(x)
  {
  }

  lemma Covered(d: DataSmart, all: set<object>)
    requires Footprint(d) <= all
    ensures Covers(d, all)
  {
    Own(d);
    OwnTracker(d.seen);
    OwnTracker(d.special);
  }

  lemma CoverAll(others: set<DataSmart>) returns (all: set<object>)
    ensures AllCovered(others, all) && forall x :: x in all ==> allocated(x)
  {
    hide Footprint;
    all := set o, x | o in others && x in Footprint(o) :: x;
    forall d | d in others ensures Covers(d, all) {
      Covered(d, all);
    }
    forall x | x in all ensures allocated(x) {
      var o :| o in others && x in Footprint(o);
      FootprintExists(o);
    }
  }

  // ----- operations

  /** A change asked for by a caller. */
  datatype Op =
    | PutFlag(name: string, flag: string, value: V.Flag)
    | Put(name: string, value: V.Flag)
    | Drop(name: string)
    | DropFlag(name: string, flag: string)
    | DropFlags(name: string)
    | Move(name: string, newName: string)

  /** The variables that an operation names. */
  ghost predicate Names(op: Op, name: string) {
    op.name == name || (op.Put? && Puts(op.name, name)) || (op.Move? && Puts(op.newName, name))
  }

  /** The variable itself, or the one that the name says a value is to be noted for. */
  ghost predicate Puts(written: string, name: string) {
    written == name || (Keyword(written).Some? && Keyword(written).value.0 == name)
  }

  ghost predicate OnlyNames(op: Op, cs: seq<Change>) {
    forall c :: c in cs ==> Names(op, c.name)
  }

  lemma NoChange(s: Store)
    ensures ChangedBy(s, []) == s
  {
  }

  lemma OneChanged(s: Store, c: Change)
    ensures ChangedBy(s, [c]) == Changed(s, c)
  {
    assert [c][..0] == [];
  }

  lemma {:induction false} ChangesJoin(s: Store, a: seq<Change>, b: seq<Change>)
    ensures ChangedBy(ChangedBy(s, a), b) == ChangedBy(s, a + b)
    decreases |b|
  {
    if b == [] {
      assert a + b == a;
    } else {
      var last := |b| - 1;
      assert (a + b)[..|a + b| - 1] == a + b[..last];
      ChangesJoin(s, a, b[..last]);
    }
  }

  /** The changes that setting a variable comes to, or noting its value in the given list. */
  ghost function PutChanges(name: string, val: Option<V.Flag>, noted: V.ListBox?): seq<Change> {
    if val == None then []
    else if Keyword(name) == None then [SetContent(name, val.value)]
    else if noted == null then []
    else [Note(Keyword(name).value.0, Keyword(name).value.1, V.List(noted))]
  }

  ghost function HandChanges(key: string, newKey: string, keyword: string, list: V.ListBox?): seq<Change> {
    if list == null then [] else [Change.Hand(newKey, keyword, key, V.List(list))]
  }

  /** The changes that renaming comes to, as far as it came. */
  ghost function MoveChanges(outcome: Renaming, key: string, newKey: string, val: Option<V.Flag>, noted: V.ListBox?,
      appended: V.ListBox?, prepended: V.ListBox?): seq<Change>
  {
    if outcome == Unset then []
    else
      PutChanges(newKey, val, noted) + HandChanges(key, newKey, "_append", appended)
      + HandChanges(key, newKey, "_prepend", prepended) + if outcome == Renamed then [Change.DelVar(key)] else []
  }

  lemma FewChanged(s: Store, cs: seq<Change>)
    requires |cs| <= 1
    ensures ChangedBy(s, cs) == if cs == [] then s else Changed(s, cs[0])
  {
    if cs != [] {
      OneChanged(s, cs[0]);
      assert cs == [cs[0]];
    }
  }

  lemma MoveChanged(s: Store, outcome: Renaming, key: string, newKey: string, val: Option<V.Flag>, noted: V.ListBox?,
      appended: V.ListBox?, prepended: V.ListBox?)
    ensures ChangedBy(s, MoveChanges(outcome, key, newKey, val, noted, appended, prepended)) ==
      s.Rename(outcome, key, newKey, val, noted, appended, prepended)
    ensures OnlyNames(Move(key, newKey), MoveChanges(outcome, key, newKey, val, noted, appended, prepended))
  {
    hide ChangedBy;
    hide Store.SetContent;
    hide Store.Note;
    hide Store.Hand;
    hide Store.DelVar;
    var a, b, c := PutChanges(newKey, val, noted), HandChanges(key, newKey, "_append", appended),
      HandChanges(key, newKey, "_prepend", prepended);
    var d := if outcome == Renamed then [Change.DelVar(key)] else [];
    if outcome == Unset {
      NoChange(s);
    } else {
      FewChanged(s, a);
      FewChanged(ChangedBy(s, a), b);
      FewChanged(ChangedBy(ChangedBy(s, a), b), c);
      FewChanged(ChangedBy(ChangedBy(ChangedBy(s, a), b), c), d);
      ChangesJoin(s, a, b);
      ChangesJoin(s, a + b, c);
      ChangesJoin(s, a + b + c, d);
    }
  }

  /** Carries out one operation; where the store raises, what was done until then stays done. */
  method Perform(s: DataSmart, op: Op) returns (ghost cs: seq<Change>)
    requires s.Valid()
    modifies s.Region()
    ensures s.Valid() && forall o :: o in s.Region() ==> o in old(s.Region()) || fresh(o)
    ensures s.Now() == ChangedBy(old(s.Now()), cs) && OnlyNames(op, cs)
  {
    hide DataSmart.Now;
    hide DataSmart.Valid;
    hide DataSmart.Region;
    hide V.FlagOf;
    hide V.FlagsOf;
    ghost var before := s.Now();
    NoChange(before);
    cs := [];
    match op {
      case PutFlag(name, flag, value) =>
        s.SetFlag(name, flag, value);
        cs := [SetFlag(name, flag, value)];
      case Put(name, value) =>
        var box := s.SetVar(name, value);
        if Keyword(name) == None {
          cs := [SetContent(name, value)];
        } else if box != null {
          cs := [Note(Keyword(name).value.0, Keyword(name).value.1, V.List(box))];
        }
      case Drop(name) =>
        s.DelVar(name);
        cs := [DelVar(name)];
      case DropFlag(name, flag) =>
        s.DelFlagLocal(name, flag);
        cs := [DelFlag(name, flag)];
      case DropFlags(name) =>
        s.DelVarFlags(name);
        cs := [DelFlags(name)];
      case Move(name, newName) =>
        var outcome;
        ghost var val, noted, appended, prepended;
        outcome, val, noted, appended, prepended := s.RenameVar(name, newName);
        MoveChanged(before, outcome, name, newName, val, noted, appended, prepended);
        return MoveChanges(outcome, name, newName, val, noted, appended, prepended);
    }
    if cs != [] {
      OneChanged(before, cs[0]);
    }
  }

  /** A change of a store is not seen by stores apart from it. */
  method PerformApart(s: DataSmart, op: Op, ghost others: set<DataSmart>, ghost all: set<object>)
    returns (ghost cs: seq<Change>)
    requires s.Valid() && all !! s.Region() && AllCovered(others, all) && forall x :: x in all ==> allocated(x)
    modifies s.Region()
    ensures s.Valid() && all !! s.Region() && AllCovered(others, all) && forall o ::
      o in s.Region() ==> o in old(s.Region()) || fresh(o)
    ensures forall d :: d in others ==> SightOf(d, all) == old(SightOf(d, all))
    ensures s.Now() == ChangedBy(old(s.Now()), cs) && OnlyNames(op, cs)
  {
    hide DataSmart.Now;
    hide DataSmart.Valid;
    hide DataSmart.Region;
    hide Footprint;
    hide ChangedBy;
    hide OnlyNames;
    hide SightOf;
    hide Covers;
    cs := Perform(s, op);
  }

  ghost predicate AllNamed(ops: seq<Op>, cs: seq<Change>) {
    forall c :: c in cs ==> exists op :: op in ops && Names(op, c.name)
  }

  lemma MoreNamed(ops: seq<Op>, op: Op, cs: seq<Change>, more: seq<Change>)
    requires AllNamed(ops, cs) && OnlyNames(op, more)
    ensures AllNamed(ops + [op], cs + more)
  {
    hide Names;
    assert op in ops + [op];
    forall c | c in cs + more ensures exists op' :: op' in ops + [op] && Names(op', c.name) {
      if c in cs {
        var op' :| op' in ops && Names(op', c.name);
        assert op' in ops + [op];
      }
    }
  }

  /** Any sequence of changes. */
  method PerformAll(s: DataSmart, ops: seq<Op>, ghost others: set<DataSmart>, ghost all: set<object>)
    returns (ghost cs: seq<Change>)
    requires s.Valid() && all !! s.Region() && AllCovered(others, all) && forall x :: x in all ==> allocated(x)
    modifies s.Region()
    ensures s.Valid() && AllCovered(others, all) && forall o :: o in s.Region() ==> o in old(s.Region()) || fresh(o)
    ensures forall d :: d in others ==> SightOf(d, all) == old(SightOf(d, all))
    ensures s.Now() == ChangedBy(old(s.Now()), cs) && AllNamed(ops, cs)
  {
    hide DataSmart.Now;
    hide DataSmart.Valid;
    hide DataSmart.Region;
    hide Footprint;
    hide ChangedBy;
    hide OnlyNames;
    ghost var before := s.Now();
    NoChange(before);
    cs := [];
    for k := 0 to |ops|
      invariant s.Valid() && all !! s.Region() && AllCovered(others, all) && forall o ::
          o in s.Region() ==> o in old(s.Region()) || fresh(o)
      invariant forall d :: d in others ==> SightOf(d, all) == old(SightOf(d, all))
      invariant s.Now() == ChangedBy(before, cs) && AllNamed(ops[..k], cs)
    {
      ghost var more := PerformApart(s, ops[k], others, all);
      ChangesJoin(before, cs, more);
      MoreNamed(ops[..k], ops[k], cs, more);
      assert ops[..k] + [ops[k]] == ops[..k + 1];
      cs := cs + more;
    }
    assert ops[..|ops|] == ops;
  }

  /** What a copy of a store starts with. */
  ghost function CopyOf(s: Store): Store {
    var nothing := C.Level(map[], map[]);
    Store(map[], s.View(), Held(nothing, [s.seen.own] + s.seen.above), Held(nothing, [s.special.own] + s.special.above))
  }

  lemma CopyStarts(data: DataSmart, d: DataSmart)
    requires data.Valid() && data.dict.vars == map[] && data.seen.mutables == map[] && data.special.mutables == map[]
    requires data.dict.above == d.dict.Chain() && data.seen.above == d.seen.Chain() && data.special.above ==
      d.special.Chain()
    ensures data.Now() == CopyOf(d.Now())
  {
    CopySeesOriginal(data, d);
    Split(data.seen);
    Split(data.special);
    assert C.LevelOf(data.seen) == C.Level(map[], map[]) && C.LevelOf(data.special) == C.Level(map[], map[]);
    assert V.Own(data.dict) == map[];
  }

  /**
   * Copies a store and changes the copy in any way: the store, and every other
   * store that existed before, is and answers as before.
   */
  method WorkOnCopy(d: DataSmart, ops: seq<Op>, ghost others: set<DataSmart>)
    returns (copy: DataSmart, ghost cs: seq<Change>)
    requires d.Valid() && d in others
    ensures copy.Valid() && fresh(copy.Region())
    ensures forall o :: o in others ==> o.Valid() == old(o.Valid()) && o.Now() == old(o.Now())
    ensures copy.Now() == ChangedBy(CopyOf(old(d.Now())), cs) && AllNamed(ops, cs)
  {
    hide DataSmart.Now;
    hide DataSmart.Valid;
    hide Footprint;
    hide ChangedBy;
    hide AllNamed;
    ghost var all := CoverAll(others);
    copy := d.CreateCopy();
    CopyStarts(copy, d);
    cs := PerformAll(copy, ops, others, all);
  }

  /** What no operation names is looked up in the copy as in the original. */
  lemma UnnamedSame(s: Store, ops: seq<Op>, cs: seq<Change>, name: string)
    requires AllNamed(ops, cs) && forall op :: op in ops ==> !Names(op, name)
    ensures V.Find(ChangedBy(CopyOf(s), cs).View(), name) == V.Find(s.View(), name)
  {
    hide Names;
    Isolated(CopyOf(s), cs, name);
    assert CopyOf(s).View() == [map[]] + s.View();
    assert ([map[]] + s.View())[1..] == s.View();
  }

  /**
   * A copy of a copy: changing it leaves the copy and the original alone, and changing the copy left
   * the original alone.
   */
  method WorkOnCopyOfCopy(d: DataSmart, ops: seq<Op>, more: seq<Op>)
    returns (copy: DataSmart, second: DataSmart, ghost cs: seq<Change>, ghost cs2: seq<Change>)
    requires d.Valid()
    ensures d.Valid() && d.Now() == old(d.Now())
    ensures copy.Valid() && copy.Now() == ChangedBy(CopyOf(d.Now()), cs) && AllNamed(ops, cs)
    ensures second.Valid() && second.Now() == ChangedBy(CopyOf(copy.Now()), cs2) && AllNamed(more, cs2)
  {
    hide DataSmart.Now;
    hide DataSmart.Valid;
    hide ChangedBy;
    hide AllNamed;
    hide CopyOf;
    copy, cs := WorkOnCopy(d, ops, {d});
    second, cs2 := WorkOnCopy(copy, more, {d, copy});
  }
}
