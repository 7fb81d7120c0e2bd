/**
 * The table of package revision numbers: a value per version, architecture
 * and checksum, with or without history.
 */
module PRTable {
  import opened Finite
  import opened Options

  datatype Key = Key(version: string, pkgarch: string, checksum: string)

  type Rows = map<Key, int>

  datatype Row = Row(key: Key, value: int)

  // ----- queries

  ghost predicate Alike(a: Key, b: Key) {
    a.version == b.version && a.pkgarch == b.pkgarch
  }

  /** m is the maximum of the values for the version and architecture of the key. */
  ghost predicate IsMax(rows: Rows, key: Key, m: int) {
    && (forall k :: k in rows && Alike(k, key) ==> rows[k] <= m)
    && (exists k :: k in rows && Alike(k, key) && rows[k] == m)
  }

  ghost predicate HasAny(rows: Rows, key: Key) {
    exists k :: k in rows && Alike(k, key)
  }

  /** select max(value): none if there is no row. */
  ghost function Max(rows: Rows, key: Key): Option<int> {
    if exists m :: IsMax(rows, key, m) then (var m :| IsMax(rows, key, m); Some(m)) else None
  }

  /** select ifnull(max(value)+1, 0) */
  ghost function Next(rows: Rows, key: Key): int {
    if Max(rows, key) == None then 0 else Max(rows, key).value + 1
  }

  lemma MaxIs(rows: Rows, key: Key, m: int)
    requires IsMax(rows, key, m)
    ensures Max(rows, key) == Some(m)
  {
    var n := Max(rows, key).value;
    var k :| k in rows && Alike(k, key) && rows[k] == m;
    var l :| l in rows && Alike(l, key) && rows[l] == n;
  }

  lemma {:induction false} MaxExists(rows: Rows, key: Key)
    requires HasAny(rows, key)
    ensures exists m :: IsMax(rows, key, m)
    decreases |rows|
  {
    var k :| k in rows && Alike(k, key);
    var rest := rows - {k};
    assert rest.Keys == rows.Keys - {k};
    if HasAny(rest, key) {
      MaxExists(rest, key);
      var m :| IsMax(rest, key, m);
      var l :| l in rest && Alike(l, key) && rest[l] == m;
      assert l in rows;
      assert IsMax(rows, key, if m < rows[k] then rows[k] else m);
    } else {
      forall l | l in rows && Alike(l, key) ensures l == k {
        assert l != k ==> l in rest;
      }
      assert IsMax(rows, key, rows[k]);
    }
  }

  lemma MaxNone(rows: Rows, key: Key)
    ensures Max(rows, key) == None <==> !HasAny(rows, key)
  {
    if HasAny(rows, key) {
      MaxExists(rows, key);
    }
  }

  /** The row of the key is there and none for its version and architecture is above it. */
  ghost predicate AtTop(rows: Rows, key: Key) {
    key in rows && IsMax(rows, key, rows[key])
  }

  // ----- one call, on the rows

  /** Asking without history: a row at the top answers, otherwise the key moves above all others. */
  ghost function GetNohist(rows: Rows, key: Key): Rows {
    if AtTop(rows, key) then rows else rows[key := Next(rows, key)]
  }

  ghost function GetHist(rows: Rows, key: Key): Rows {
    if key in rows then rows else rows[key := Next(rows, key)]
  }

  ghost function ImportNohist(rows: Rows, row: Row): Rows {
    if row.key in rows && rows[row.key] >= row.value then rows else rows[row.key := row.value]
  }

  ghost function ImportHist(rows: Rows, row: Row): Rows {
    if row.key in rows then rows else rows[row.key := row.value]
  }

  /** The key asked for is at the top afterwards, and the top never sinks. */
  lemma GetRaises(rows: Rows, key: Key)
    ensures AtTop(GetNohist(rows, key), key)
    ensures Max(GetNohist(rows, key), key) == Some(GetNohist(rows, key)[key])
    ensures Max(rows, key).Some? ==> Max(rows, key).value <= GetNohist(rows, key)[key]
  {
    var rows' := GetNohist(rows, key);
    MaxNone(rows, key);
    if !AtTop(rows, key) {
      if Max(rows, key).Some? {
        assert IsMax(rows, key, Max(rows, key).value);
      }
      assert key in rows' && Alike(key, key);
      assert IsMax(rows', key, rows'[key]);
    }
    MaxIs(rows', key, rows'[key]);
    if AtTop(rows, key) {
      MaxIs(rows, key, rows[key]);
    }
  }

  lemma MaxAlike(rows: Rows, a: Key, b: Key)
    requires Alike(a, b)
    ensures Max(rows, a) == Max(rows, b)
  {
    MaxNone(rows, a);
    MaxNone(rows, b);
    if HasAny(rows, a) {
      MaxExists(rows, a);
      var m :| IsMax(rows, a, m);
      assert IsMax(rows, b, m);
      MaxIs(rows, a, m);
      MaxIs(rows, b, m);
    }
  }

  /** Raising a row changes nothing for other versions and architectures. */
  lemma OtherGroup(rows: Rows, key: Key, value: int, other: Key)
    requires !Alike(other, key)
    ensures AtTop(rows[key := value], other) <==> AtTop(rows, other)
    ensures Max(rows[key := value], other) == Max(rows, other)
  {
    var rows' := rows[key := value];
    assert forall m :: IsMax(rows', other, m) <==> IsMax(rows, other, m) by {
      forall m ensures IsMax(rows', other, m) <==> IsMax(rows, other, m) {
        if IsMax(rows, other, m) {
          var k :| k in rows && Alike(k, other) && rows[k] == m;
          assert k in rows' && rows'[k] == m;
        }
        if IsMax(rows', other, m) {
          var k :| k in rows' && Alike(k, other) && rows'[k] == m;
          assert k in rows && rows[k] == m;
        }
      }
    }
    MaxNone(rows, other);
    MaxNone(rows', other);
    if m :| IsMax(rows, other, m) {
      MaxIs(rows, other, m);
      MaxIs(rows', other, m);
    }
  }

  /** What asking for a key changes about the top rows. */
  lemma GetTop(rows: Rows, key: Key, other: Key)
    ensures var rows' := GetNohist(rows, key);
      && (AtTop(rows', other) <==> if Alike(other, key) && !AtTop(rows, key) then other == key else AtTop(rows, other))
      && (other != key && other in rows ==> other in rows' && rows'[other] == rows[other])
      && Max(rows', other) == if Alike(other, key) then Some(rows'[key]) else Max(rows, other)
  {
    var rows' := GetNohist(rows, key);
    GetRaises(rows, key);
    if Alike(other, key) {
      MaxAlike(rows', other, key);
      if !AtTop(rows, key) {
        if other in rows {
          RaisedAbove(rows, key, other);
        }
        assert key in rows' && Alike(key, other);
      }
    } else if !AtTop(rows, key) {
      OtherGroup(rows, key, rows'[key], other);
    }
  }

  lemma RaisedAbove(rows: Rows, key: Key, other: Key)
    requires Alike(other, key) && !AtTop(rows, key) && other in rows
    ensures rows[other] < GetNohist(rows, key)[key]
  {
    assert HasAny(rows, key);
    MaxNone(rows, key);
    assert IsMax(rows, key, Max(rows, key).value);
  }

  // ----- tables that answer alike

  /** Two tables have the same rows at the top for the key's version and architecture. */
  ghost predicate SameTop(r: Rows, s: Rows, key: Key) {
    && (AtTop(r, key) <==> AtTop(s, key))
    && Max(r, key) == Max(s, key)
  }

  /** The same for every key with a version, or for all keys. */
  ghost predicate Equivalent(r: Rows, s: Rows, all: bool) {
    forall key: Key :: all || key.version != "" ==> SameTop(r, s, key)
  }

  lemma TopValue(rows: Rows, key: Key)
    requires AtTop(rows, key)
    ensures Max(rows, key) == Some(rows[key])
  {
    MaxIs(rows, key, rows[key]);
  }

  lemma GetAlike(r: Rows, s: Rows, key: Key, all: bool)
    requires Equivalent(r, s, all) && (all || key.version != "")
    ensures GetNohist(r, key)[key] == GetNohist(s, key)[key]
    ensures Equivalent(GetNohist(r, key), GetNohist(s, key), all)
  {
    hide AtTop;
    hide Max;
    assert SameTop(r, s, key);
    if AtTop(r, key) {
      TopValue(r, key);
      TopValue(s, key);
    }
    forall other: Key | all || other.version != "" ensures SameTop(GetNohist(r, key), GetNohist(s, key), other) {
      assert SameTop(r, s, other);
      GetTop(r, key, other);
      GetTop(s, key, other);
    }
  }

  ghost function After(rows: Rows, calls: seq<Key>): Rows {
    if calls == [] then rows else GetNohist(After(rows, calls[..|calls| - 1]), calls[|calls| - 1])
  }

  /** The answer to the last of a sequence of calls. */
  ghost function Answer(rows: Rows, calls: seq<Key>): int
    requires calls != []
  {
    After(rows, calls)[calls[|calls| - 1]]
  }

  lemma {:induction false} AnswersAlike(r: Rows, s: Rows, calls: seq<Key>, all: bool)
    requires Equivalent(r, s, all) && forall k :: k in calls ==> all || k.version != ""
    ensures Equivalent(After(r, calls), After(s, calls), all)
    ensures calls != [] ==> Answer(r, calls) == Answer(s, calls)
  {
    if calls != [] {
      var init, last := calls[..|calls| - 1], calls[|calls| - 1];
      assert last in calls;
      AnswersAlike(r, s, init, all);
      GetAlike(After(r, init), After(s, init), last, all);
    }
  }

  // ----- export and import

  /** A listing of the rows that are exported: those at the top whose version is not empty. */
  ghost predicate IsExport(rows: Rows, listing: seq<Row>) {
    forall row :: row in listing <==> AtTop(rows, row.key) && row.value == rows[row.key] && row.key.version != ""
  }

  ghost function Imported(rows: Rows, listing: seq<Row>): Rows {
    if listing == [] then rows else ImportNohist(Imported(rows, listing[..|listing| - 1]), listing[|listing| - 1])
  }

  lemma {:induction false} ImportedIs(rows: Rows, listing: seq<Row>)
    requires forall row :: row in listing ==> row.key in rows && row.value == rows[row.key]
    ensures forall k :: k in Imported(map[], listing) <==> exists row :: row in listing && row.key == k
    ensures forall k :: k in Imported(map[], listing) ==> k in rows && Imported(map[], listing)[k] == rows[k]
  {
    if listing != [] {
      var init, last := listing[..|listing| - 1], listing[|listing| - 1];
      assert forall row :: row in init ==> row in listing;
      assert last in listing;
      ImportedIs(rows, init);
      assert forall row :: row in listing ==> row in init || row == last;
    }
  }

  /** Importing an export into an empty table gives a table with the same top rows. */
  lemma RoundTrip(rows: Rows, listing: seq<Row>)
    requires IsExport(rows, listing)
    ensures Equivalent(rows, Imported(map[], listing), false)
  {
    var copy := Imported(map[], listing);
    ImportedIs(rows, listing);
    forall key: Key | key.version != "" ensures SameTop(rows, copy, key) {
      forall k | Alike(k, key) ensures k in copy <==> AtTop(rows, k) {
        if AtTop(rows, k) {
          assert Row(k, rows[k]) in listing;
        }
      }
      SubTop(rows, copy, key);
    }
  }

  /** A table that has just the top rows of another. */
  lemma SubTop(rows: Rows, copy: Rows, key: Key)
    requires forall k :: Alike(k, key) ==> (k in copy <==> AtTop(rows, k))
    requires forall k :: k in copy ==> k in rows && copy[k] == rows[k]
    ensures SameTop(rows, copy, key)
  {
    MaxNone(rows, key);
    MaxNone(copy, key);
    if HasAny(rows, key) {
      MaxExists(rows, key);
      var m :| IsMax(rows, key, m);
      var k :| k in rows && Alike(k, key) && rows[k] == m;
      assert IsMax(rows, k, m);
      assert k in copy;
      assert IsMax(copy, key, m);
      MaxIs(rows, key, m);
      MaxIs(copy, key, m);
      if key in copy {
        TopValue(rows, key);
      }
    }
    assert Alike(key, key);
  }

  /** So the copy gives the same answers as the original, whatever is asked afterwards. */
  lemma CopyAnswersAlike(rows: Rows, listing: seq<Row>, calls: seq<Key>)
    requires IsExport(rows, listing) && calls != [] && forall k :: k in calls ==> k.version != ""
    ensures Answer(Imported(map[], listing), calls) == Answer(rows, calls)
  {
    RoundTrip(rows, listing);
    AnswersAlike(rows, Imported(map[], listing), calls, false);
  }

  /** All sequences of questions are answered alike. */
  ghost predicate AnswersSame(r: Rows, s: Rows) {
    forall calls :: calls != [] ==> Answer(r, calls) == Answer(s, calls)
  }

  /**
   * The copy answers every sequence of questions as the original does exactly if
   * no row has an empty version: such rows are not exported.
   */
  lemma FaithfulIff(rows: Rows, listing: seq<Row>)
    requires IsExport(rows, listing)
    ensures AnswersSame(rows, Imported(map[], listing)) <==> Versioned(rows)
  {
    var copy := Imported(map[], listing);
    RoundTrip(rows, listing);
    ImportedIs(rows, listing);
    forall l | l in copy ensures l.version != "" {
      var row :| row in listing && row.key == l;
    }
    if !Versioned(rows) {
      var k: Key :| k in rows && k.version == "";
      var call := Unlike(rows, copy, k);
      assert Answer(rows, [call]) != Answer(copy, [call]);
    } else {
      forall key: Key | key.version == "" ensures SameTop(rows, copy, key) {
        MaxNone(rows, key);
        MaxNone(copy, key);
      }
      forall calls | calls != [] ensures Answer(rows, calls) == Answer(copy, calls) {
        AnswersAlike(rows, copy, calls, true);
      }
    }
  }

  /** A question that tells a table with an unversioned row from one without. */
  lemma Unlike(rows: Rows, copy: Rows, k: Key) returns (call: Key)
    requires k in rows && k.version == "" && forall l :: l in copy ==> l.version != ""
    ensures Answer(rows, [call]) != Answer(copy, [call])
  {
    assert Alike(k, k);
    MaxNone(rows, k);
    var m := Max(rows, k).value;
    assert IsMax(rows, k, m);
    if m == -1 {
      call :| call in rows && Alike(call, k) && rows[call] == m;
      assert IsMax(rows, call, m);
    } else {
      call := Key("", k.pkgarch, NewChecksum(rows));
      MaxAlike(rows, k, call);
    }
    MaxNone(copy, call);
    OneAnswer(rows, call);
    OneAnswer(copy, call);
  }

  lemma OneAnswer(rows: Rows, call: Key)
    ensures Answer(rows, [call]) == GetNohist(rows, call)[call]
  {
    assert [call][..|[call]| - 1] == [];
    assert After(rows, []) == rows;
  }

  /** Longer than all checksums of the table. */
  ghost function Longer(rows: Rows): (n: nat)
    ensures forall k :: k in rows ==> |k.checksum| < n
    decreases |rows|
  {
    if rows == map[] then 0
    else
      var k :| k in rows;
      var rest := rows - {k};
      assert rest.Keys == rows.Keys - {k};
      var n := Longer(rest);
      assert forall l :: l in rows ==> l == k || l in rest;
      if |k.checksum| < n then n else |k.checksum| + 1
  }

  /** A checksum that is not in the table. */
  ghost function NewChecksum(rows: Rows): (c: string)
    ensures forall k :: k in rows ==> k.checksum != c
  {
    seq(Longer(rows), _ => 'x')
  }

  ghost predicate Versioned(rows: Rows) {
    forall k: Key :: k in rows ==> k.version != ""
  }

  // ----- values over time

  datatype Op = Ask(key: Key) | Put(row: Row)

  ghost function Done(rows: Rows, op: Op): Rows {
    match op
    case Ask(key) => GetNohist(rows, key)
    case Put(row) => ImportNohist(rows, row)
  }

  ghost function DoneAll(rows: Rows, ops: seq<Op>): Rows {
    if ops == [] then rows else Done(DoneAll(rows, ops[..|ops| - 1]), ops[|ops| - 1])
  }

  /** Some row for the version and architecture has at least this value. */
  ghost predicate Reached(rows: Rows, key: Key, value: int) {
    exists k :: k in rows && Alike(k, key) && rows[k] >= value
  }

  lemma StaysReached(rows: Rows, op: Op, key: Key, value: int)
    requires Reached(rows, key, value)
    ensures Reached(Done(rows, op), key, value)
  {
    var k :| k in rows && Alike(k, key) && rows[k] >= value;
    if op.Ask? {
      GetTop(rows, op.key, k);
      GetRaises(rows, op.key);
      if k == op.key && !AtTop(rows, k) {
        MaxNone(rows, k);
        assert IsMax(rows, k, Max(rows, k).value);
      }
    }
    assert k in Done(rows, op) && Done(rows, op)[k] >= value;
  }

  lemma {:induction false} StaysReachedAll(rows: Rows, ops: seq<Op>, key: Key, value: int)
    requires Reached(rows, key, value)
    ensures Reached(DoneAll(rows, ops), key, value)
  {
    if ops != [] {
      StaysReachedAll(rows, ops[..|ops| - 1], key, value);
      StaysReached(DoneAll(rows, ops[..|ops| - 1]), ops[|ops| - 1], key, value);
    }
  }

  /** Whatever is asked and imported in between, the values given out for a version and architecture never decrease. */
  lemma NeverDecreases(rows: Rows, first: Key, between: seq<Op>, second: Key)
    requires Alike(first, second)
    ensures var r := GetNohist(rows, first); r[first] <= GetNohist(DoneAll(r, between), second)[second]
  {
    var r := GetNohist(rows, first);
    assert Reached(r, first, r[first]);
    StaysReachedAll(r, between, first, r[first]);
    var u := DoneAll(r, between);
    var k :| k in u && Alike(k, first) && u[k] >= r[first];
    GetRaises(u, second);
    MaxNone(u, second);
    assert HasAny(u, second);
    assert IsMax(u, second, Max(u, second).value);
  }

  /** At most one row is at the top for each version and architecture. */
  ghost predicate NoTies(rows: Rows) {
    forall a, b :: AtTop(rows, a) && AtTop(rows, b) && Alike(a, b) ==> a == b
  }

  /** Asking alone makes no ties. */
  lemma {:induction false} AskingMakesNoTies(calls: seq<Key>)
    ensures NoTies(After(map[], calls))
  {
    if calls != [] {
      var init, last := calls[..|calls| - 1], calls[|calls| - 1];
      var rows := After(map[], init);
      AskingMakesNoTies(init);
      hide AtTop;
      forall a, b | AtTop(GetNohist(rows, last), a) && AtTop(GetNohist(rows, last), b) && Alike(a, b) ensures a == b {
        GetTop(rows, last, a);
        GetTop(rows, last, b);
      }
    }
  }

  /** After one checksum, another one gets a higher value, unless both stand at the top with the same. */
  lemma RisesUnlessTied(rows: Rows, first: Key, second: Key)
    requires Alike(first, second) && first != second
    ensures var r := GetNohist(rows, first); r[first] < GetNohist(r, second)[second] <==> !AtTop(r, second)
  {
    var r := GetNohist(rows, first);
    GetRaises(rows, first);
    MaxAlike(r, first, second);
    if AtTop(r, second) {
      TopValue(r, second);
    } else {
      RaisedAbove(r, second, first);
    }
  }

  /** In a table that has only been asked, a new checksum always gets a higher value than the one asked for before. */
  lemma RisesStrictly(calls: seq<Key>, first: Key, second: Key)
    requires Alike(first, second) && first != second
    ensures var r := After(map[], calls + [first]); r[first] < GetNohist(r, second)[second]
  {
    var rows := After(map[], calls);
    var all := calls + [first];
    assert all[..|all| - 1] == calls;
    AskingMakesNoTies(all);
    GetRaises(rows, first);
    RisesUnlessTied(rows, first, second);
  }

  /**
   * Two checksums imported with the same value stand at the top together: asking for one and then the
   * other gives no rise.
   */
  lemma TiesHappen()
    ensures var (a, b) := (Key("1", "all", "a"), Key("1", "all", "b"));
      var rows := ImportNohist(ImportNohist(map[], Row(a, 0)), Row(b, 0));
      var r := GetNohist(rows, a);
      Alike(a, b) && a != b && AtTop(r, b) && GetNohist(r, b)[b] == r[a]
  {
    var (a, b) := (Key("1", "all", "a"), Key("1", "all", "b"));
    var rows := ImportNohist(ImportNohist(map[], Row(a, 0)), Row(b, 0));
    assert rows == map[a := 0, b := 0];
    assert IsMax(rows, a, 0) && IsMax(rows, b, 0);
  }

  // ----- which values are given out

  /** The value is just above all for the version and architecture, or 0 if there are none. */
  ghost predicate JustAbove(rows: Rows, key: Key, value: int) {
    if !HasAny(rows, key) then value == 0
    else
      && (forall k :: k in rows && Alike(k, key) ==> rows[k] < value)
      && (exists k :: k in rows && Alike(k, key) && rows[k] == value - 1)
  }

  /** The same rows but for that of the key. */
  ghost predicate OnlyRow(rows: Rows, rows': Rows, key: Key) {
    rows'.Keys == rows.Keys + {key} && forall k :: k in rows && k != key ==> k in rows' && rows'[k] == rows[k]
  }

  lemma NextIs(rows: Rows, key: Key)
    ensures JustAbove(rows, key, Next(rows, key))
  {
    MaxNone(rows, key);
    if HasAny(rows, key) {
      assert IsMax(rows, key, Max(rows, key).value);
    }
  }

  /** Without history, a row at the top is the answer; otherwise the row of the key is put just above all others. */
  lemma AskedIs(rows: Rows, key: Key)
    ensures AtTop(rows, key) ==> GetNohist(rows, key) == rows
    ensures !AtTop(rows, key) ==>
      OnlyRow(rows, GetNohist(rows, key), key) && JustAbove(rows, key, GetNohist(rows, key)[key])
  {
    NextIs(rows, key);
  }

  /** With history, a row is the answer for good; a new one is put just above all others. */
  lemma HistoryAskedIs(rows: Rows, key: Key)
    ensures key in rows ==> GetHist(rows, key) == rows
    ensures key !in rows ==>
      OnlyRow(rows, GetHist(rows, key), key) && JustAbove(rows, key, GetHist(rows, key)[key])
  {
    NextIs(rows, key);
  }

  /** An import raises the row to the value, and never lowers it; with history it only adds a row that is not there. */
  lemma ImportedRow(rows: Rows, row: Row)
    ensures var r := ImportNohist(rows, row);
      && OnlyRow(rows, r, row.key) && r[row.key] >= row.value && (row.key in rows ==> r[row.key] >= rows[row.key])
      && (r[row.key] == row.value || (row.key in rows && r[row.key] == rows[row.key]))
    ensures var r := ImportHist(rows, row);
      OnlyRow(rows, r, row.key) && r[row.key] == if row.key in rows then rows[row.key] else row.value
  {
  }

  /** The last call for the version and architecture. */
  ghost function Latest(calls: seq<Key>, key: Key): Option<Key> {
    if calls == [] then None
    else if Alike(calls[|calls| - 1], key) then Some(calls[|calls| - 1])
    else Latest(calls[..|calls| - 1], key)
  }

  /** How often the checksum changed from one call for the version and architecture to the next. */
  ghost function Changes(calls: seq<Key>, key: Key): nat {
    if calls == [] then 0
    else
      var init, last := calls[..|calls| - 1], calls[|calls| - 1];
      Changes(init, key)
      + if Alike(last, key) && Latest(init, key).Some? && Latest(init, key) != Some(last) then 1 else 0
  }

  /** In a table that has only been asked, the last key asked for is alone at the top, with the number of changes. */
  lemma {:induction false} AskedTop(calls: seq<Key>, key: Key)
    ensures var rows := After(map[], calls);
      match Latest(calls, key)
      case None => !HasAny(rows, key) && Changes(calls, key) == 0
      case Some(k) => AtTop(rows, k) && Alike(k, key) && rows[k] == Changes(calls, key)
    decreases |calls|
  {
    if calls != [] {
      var init, last := calls[..|calls| - 1], calls[|calls| - 1];
      var rows := After(map[], init);
      AskedTop(init, key);
      AskingMakesNoTies(init);
      GetRaises(rows, last);
      if Alike(last, key) {
        if Latest(init, key).Some? {
          var k := Latest(init, key).value;
          TopValue(rows, k);
          MaxAlike(rows, k, last);
          if AtTop(rows, last) {
            assert k == last;
          }
        } else {
          MaxNone(rows, key);
          MaxAlike(rows, key, last);
          MaxNone(rows, last);
        }
      } else {
        ElseUntouched(rows, last, key, Latest(init, key));
      }
    }
  }

  lemma ElseUntouched(rows: Rows, call: Key, key: Key, k: Option<Key>)
    requires !Alike(call, key) && (k.Some? ==> Alike(k.value, key) && AtTop(rows, k.value))
    ensures var rows' := GetNohist(rows, call);
      && (!HasAny(rows, key) ==> !HasAny(rows', key))
      && (k.Some? ==> AtTop(rows', k.value) && rows'[k.value] == rows[k.value])
  {
    if k.Some? && !AtTop(rows, call) {
      OtherGroup(rows, call, Next(rows, call), k.value);
    }
  }

  /** So the answer is the number of times that the checksum has changed for the version and architecture. */
  lemma AnswerCounts(calls: seq<Key>)
    requires calls != []
    ensures Answer(map[], calls) == Changes(calls, calls[|calls| - 1])
  {
    AskedTop(calls, calls[|calls| - 1]);
  }

  ghost function DoneHist(rows: Rows, ops: seq<Op>): Rows {
    if ops == [] then rows
    else
      var r, op := DoneHist(rows, ops[..|ops| - 1]), ops[|ops| - 1];
      match op
      case Ask(key) => GetHist(r, key)
      case Put(row) => ImportHist(r, row)
  }

  /** With history, a checksum keeps the value it was given first, whatever is asked and imported later. */
  lemma {:induction false} HistoryKeeps(rows: Rows, key: Key, ops: seq<Op>)
    ensures var r := GetHist(rows, key); key in DoneHist(r, ops) && DoneHist(r, ops)[key] == r[key]
    ensures forall k :: k in rows && Alike(k, key) && key !in rows ==> rows[k] < GetHist(rows, key)[key]
  {
    if ops == [] {
      MaxNone(rows, key);
      if Max(rows, key).Some? {
        assert IsMax(rows, key, Max(rows, key).value);
      }
    } else {
      HistoryKeeps(rows, key, ops[..|ops| - 1]);
    }
  }

  // ----- the table as an object

  class PRTable {
    const nohist: bool
    var rows: Rows

    constructor (nohist: bool)
      ensures this.nohist == nohist && rows == map[]
    {
      this.nohist := nohist;
      rows := map[];
    }

    method SelectMax(key: Key) returns (m: Option<int>)
      ensures m == Max(rows, key)
    {
      m := None;
      var todo := rows.Keys;
      while todo != {}
        invariant todo <= rows.Keys
        invariant m == None ==> forall k :: k in rows && k !in todo ==> !Alike(k, key)
        invariant m.Some? ==> (forall k :: k in rows && k !in todo && Alike(k, key) ==> rows[k] <= m.value)
        invariant m.Some? ==> exists k :: k in rows && Alike(k, key) && rows[k] == m.value
        decreases |todo|
      {
        var k := Pick(todo);
        todo := todo - {k};
        if k.version == key.version && k.pkgarch == key.pkgarch {
          if m == None || m.value < rows[k] {
            m := Some(rows[k]);
          }
        }
      }
      MaxNone(rows, key);
      if m.Some? {
        MaxIs(rows, key, m.value);
      }
    }

    /** Inserts or replaces the row of the key with one above the maximum. */
    method InsertNext(key: Key)
      modifies this
      ensures rows == old(rows)[key := Next(old(rows), key)]
    {
      var m := SelectMax(key);
      rows := rows[key := if m == None then 0 else m.value + 1];
    }

    method GetValue(key: Key) returns (value: int)
      modifies this
      ensures rows == if nohist then GetNohist(old(rows), key) else GetHist(old(rows), key)
      ensures key in rows && value == rows[key]
    {
      var m := SelectMax(key);
      MaxNone(rows, key);
      if m.Some? {
        assert IsMax(rows, key, m.value);
      }
      if key in rows && (!nohist || m == None || rows[key] >= m.value) {
        if nohist {
          assert IsMax(rows, key, rows[key]);
        }
        return rows[key];
      }
      if AtTop(rows, key) {
        TopValue(rows, key);
      }
      InsertNext(key);
      return rows[key];
    }

    method ImportOne(row: Row) returns (value: Option<int>)
      modifies this
      ensures rows == if nohist then ImportNohist(old(rows), row) else ImportHist(old(rows), row)
      ensures row.key in rows && value == Some(rows[row.key])
    {
      if row.key !in rows {
        rows := rows[row.key := row.value];
      } else if nohist && rows[row.key] < row.value {
        rows := rows[row.key := row.value];
      }
      if nohist && rows[row.key] < row.value {
        return None;
      }
      return Some(rows[row.key]);
    }

    /** The rows that match the given columns, where an empty one matches all. */
    method Export(version: string, pkgarch: string, checksum: string) returns (data: seq<Row>)
      ensures forall row :: row in data <==>
                && row.key in rows && row.value == rows[row.key] && (nohist ==> AtTop(rows, row.key))
                   && row.key.version != ""
                && (version == "" || row.key.version == version) && (pkgarch == "" || row.key.pkgarch == pkgarch)
                && (checksum == "" || row.key.checksum == checksum)
    {
      data := [];
      var todo := rows.Keys;
      while todo != {}
        invariant todo <= rows.Keys
        invariant forall row :: row in data <==>
                    && row.key in rows && row.key !in todo && Exported(row, version, pkgarch, checksum)
        decreases |todo|
      {
        var k := Pick(todo);
        todo := todo - {k};
        var m := SelectMax(k);
        MaxNone(rows, k);
        assert IsMax(rows, k, m.value);
        if (nohist ==> rows[k] == m.value) && (version == "" || k.version == version)
            && (pkgarch == "" || k.pkgarch == pkgarch)
           && (checksum == "" || k.checksum == checksum) && k.version != "" {
          data := data + [Row(k, rows[k])];
        }
        if AtTop(rows, k) {
          TopValue(rows, k);
        }
      }
    }

    ghost predicate Exported(row: Row, version: string, pkgarch: string, checksum: string)
      reads this
    {
      && row.key in rows && row.value == rows[row.key] && (nohist ==> AtTop(rows, row.key)) && row.key.version != ""
      && (version == "" || row.key.version == version) && (pkgarch == "" || row.key.pkgarch == pkgarch)
      && (checksum == "" || row.key.checksum == checksum)
    }
  }
}
