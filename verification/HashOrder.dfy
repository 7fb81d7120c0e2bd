/** When the hash of a task depends on the order in which a set of dependencies is listed, and when not. */
module HashOrder {
  import opened Finite
  import opened Options
  import opened TaskHashes

  // ----- the text that is digested

  /** What dependency d adds to the text of task t. */
  ghost function Piece(q: Queue, t: int, hashes: map<int, string>, d: int): string {
    if (t, d) in q.kept && d in hashes then hashes[d] else ""
  }

  ghost function Text(q: Queue, t: int, hashes: map<int, string>, s: seq<int>): string {
    if s == [] then "" else Text(q, t, hashes, s[..|s| - 1]) + Piece(q, t, hashes, s[|s| - 1])
  }

  lemma {:induction false} GatheredIsText(q: Queue, t: int, hashes: map<int, string>, s: seq<int>)
    requires Gathered(q, t, s, hashes).Some?
    ensures Gathered(q, t, s, hashes).value == Text(q, t, hashes, s)
  {
    if s != [] {
      GatheredIsText(q, t, hashes, s[..|s| - 1]);
    }
  }

  lemma {:induction false} TextJoin(q: Queue, t: int, hashes: map<int, string>, a: seq<int>, b: seq<int>)
    ensures Text(q, t, hashes, a + b) == Text(q, t, hashes, a) + Text(q, t, hashes, b)
    decreases |b|
  {
    if b == [] {
      assert a + b == a;
    } else {
      var last := |b| - 1;
      assert (a + b)[..|a + b| - 1] == a + b[..last];
      TextJoin(q, t, hashes, a, b[..last]);
    }
  }

  lemma TextOne(q: Queue, t: int, hashes: map<int, string>, d: int)
    ensures Text(q, t, hashes, [d]) == Piece(q, t, hashes, d)
  {
    assert [d][..0] == [];
  }

  /** A way to list the dependencies of t in the order of their cleaned names. */
  ghost predicate Listing(q: Queue, t: int, s: seq<int>)
    requires Sound(q) && 0 <= t < |q.depends|
  {
    Sorted(q, s) && ListsOnce(s, q.depends[t])
  }

  /** Dependencies that are kept and cannot be told apart by their cleaned names have the same hash. */
  ghost predicate TiesAgree(q: Queue, t: int, hashes: map<int, string>, members: set<int>) {
    forall a, b :: Tied(q, t, hashes, members, a, b) ==> hashes[a] == hashes[b]
  }

  ghost predicate Tied(q: Queue, t: int, hashes: map<int, string>, members: set<int>, a: int, b: int) {
    a in members && b in members && (t, a) in q.kept && (t, b) in q.kept && a in hashes && b in hashes
      && KeyOf(q, a) == KeyOf(q, b)
  }

  /** The text digested for t does not depend on how its dependencies are listed. */
  ghost predicate OneText(q: Queue, t: int, hashes: map<int, string>)
    requires Sound(q) && 0 <= t < |q.depends|
  {
    forall s, s' :: Listing(q, t, s) && Listing(q, t, s') ==> Text(q, t, hashes, s) == Text(q, t, hashes, s')
  }

  // ----- ties that agree

  /** A dependency can be moved past others with the same cleaned name. */
  lemma {:induction false} MovesPast(q: Queue, t: int, hashes: map<int, string>, members: set<int>, u: seq<int>, x: int)
    requires TiesAgree(q, t, hashes, members) && x in members
    requires forall i :: 0 <= i < |u| ==> u[i] in members && KeyOf(q, u[i]) == KeyOf(q, x)
    ensures Text(q, t, hashes, u) + Piece(q, t, hashes, x) == Piece(q, t, hashes, x) + Text(q, t, hashes, u)
    decreases |u|
  {
    if u != [] {
      var last := |u| - 1;
      MovesPast(q, t, hashes, members, u[..last], x);
      PieceEqual(q, t, hashes, members, u[last], x);
      PastOne(Piece(q, t, hashes, x), Text(q, t, hashes, u[..last]), Piece(q, t, hashes, u[last]));
    }
  }

  lemma PieceEqual(q: Queue, t: int, hashes: map<int, string>, members: set<int>, y: int, x: int)
    requires TiesAgree(q, t, hashes, members) && x in members && y in members && KeyOf(q, y) == KeyOf(q, x)
    ensures Piece(q, t, hashes, x) == "" || Piece(q, t, hashes, y) == "" || Piece(q, t, hashes, x) ==
      Piece(q, t, hashes, y)
  {
    assert Tied(q, t, hashes, members, y, x) || Piece(q, t, hashes, x) == "" || Piece(q, t, hashes, y) == "";
  }

  lemma PastOne(p: string, w: string, y: string)
    requires w + p == p + w && (p == "" || y == "" || p == y)
    ensures (w + y) + p == p + (w + y)
  {
    assert y + p == p + y;
    assert (w + y) + p == w + (y + p) && w + (p + y) == (w + p) + y && (p + w) + y == p + (w + y);
  }

  /** The first of one listing, somewhere in another: all before it there have the same cleaned name. */
  lemma BeforeFirst(q: Queue, s: seq<int>, s': seq<int>, members: set<int>) returns (p: int)
    requires Sorted(q, s) && ListsOnce(s, members) && Sorted(q, s') && ListsOnce(s', members) && s != []
    ensures 0 <= p < |s'| && s'[p] == s[0]
    ensures forall i :: 0 <= i < p ==> s'[i] in members && KeyOf(q, s'[i]) == KeyOf(q, s[0])
  {
    MembersListed(s', members, s[0]);
    p :| 0 <= p < |s'| && s'[p] == s[0];
    forall i | 0 <= i < p ensures s'[i] in members && KeyOf(q, s'[i]) == KeyOf(q, s[0]) {
      assert s'[i] in s' && NotAfter(q, s'[i], s'[p]);
      FirstLeast(q, s, members, s'[i]);
      KeysDiffer(q, s'[i], s[0]);
    }
  }

  lemma WithoutOne(q: Queue, s: seq<int>, members: set<int>, p: int)
    requires Sorted(q, s) && ListsOnce(s, members) && 0 <= p < |s|
    ensures Sorted(q, s[..p] + s[p + 1..]) && ListsOnce(s[..p] + s[p + 1..], members - {s[p]})
  {
    hide NotAfter;
    var r := s[..p] + s[p + 1..];
    assert forall i :: 0 <= i < |r| ==> r[i] == s[if i < p then i else i + 1];
    forall x ensures x in r <==> x in members - {s[p]} {
      if x in members - {s[p]} {
        var i :| 0 <= i < |s| && s[i] == x;
        assert r[if i < p then i else i - 1] == x;
      }
    }
  }

  lemma FewerTies(q: Queue, t: int, hashes: map<int, string>, members: set<int>, fewer: set<int>)
    requires TiesAgree(q, t, hashes, members) && fewer <= members
    ensures TiesAgree(q, t, hashes, fewer)
  {
    forall a, b | Tied(q, t, hashes, fewer, a, b) ensures hashes[a] == hashes[b] {
      assert Tied(q, t, hashes, members, a, b);
    }
  }

  lemma {:induction false} SameText(q: Queue, t: int, hashes: map<int, string>, s: seq<int>, s': seq<int>,
      members: set<int>)
    requires Sorted(q, s) && ListsOnce(s, members) && Sorted(q, s') && ListsOnce(s', members)
      && TiesAgree(q, t, hashes, members)
    ensures Text(q, t, hashes, s) == Text(q, t, hashes, s')
    decreases |s|
  {
    hide Sorted;
    hide TiesAgree;
    if s == [] {
      ListedEmpty(s, members);
      ListedEmpty(s', members);
    } else {
      var x := s[0];
      var p := BeforeFirst(q, s, s', members);
      var u, v := s'[..p], s'[p + 1..];
      RestListed(q, s, members);
      WithoutOne(q, s', members, p);
      FewerTies(q, t, hashes, members, members - {x});
      SameText(q, t, hashes, s[1..], u + v, members - {x});
      assert s == [x] + s[1..] && s' == u + [x] + v;
      TextJoin(q, t, hashes, [x], s[1..]);
      TextJoin(q, t, hashes, u, v);
      TextJoin(q, t, hashes, u + [x], v);
      TextJoin(q, t, hashes, u, [x]);
      TextOne(q, t, hashes, x);
      assert x in s;
      MovesPast(q, t, hashes, members, u, x);
      Regrouped(Piece(q, t, hashes, x), Text(q, t, hashes, u), Text(q, t, hashes, v));
    }
  }

  lemma Regrouped(p: string, u: string, v: string)
    requires u + p == p + u
    ensures u + p + v == p + (u + v)
  {
    assert p + u + v == p + (u + v);
  }

  lemma RestListed(q: Queue, s: seq<int>, members: set<int>)
    requires Sorted(q, s) && ListsOnce(s, members) && s != []
    ensures Sorted(q, s[1..]) && ListsOnce(s[1..], members - {s[0]}) && s[0] in members
  {
    RestLists(s, members);
  }

  // ----- ties that do not agree

  /** Every set of dependencies can be listed in order. */
  lemma {:induction false} SortedExists(q: Queue, members: set<int>) returns (s: seq<int>)
    ensures Sorted(q, s) && ListsOnce(s, members)
    decreases |members|
  {
    s := [];
    if members != {} {
      var x := AnyOf(members);
      var rest := SortedExists(q, members - {x});
      var k := Place(q, rest, x);
      InsertSorted(q, rest, x, k);
      s := rest[..k] + [x] + rest[k..];
      InsertOnce(rest, members - {x}, x, k);
      assert members - {x} + {x} == members;
    }
  }

  lemma {:induction false} Place(q: Queue, s: seq<int>, x: int) returns (k: int)
    ensures 0 <= k <= |s| && (k > 0 ==> NotAfter(q, s[k - 1], x)) && forall i :: k <= i < |s| ==> !NotAfter(q, s[i], x)
    decreases |s|
  {
    hide NotAfter;
    k := |s|;
    if s != [] && !NotAfter(q, s[|s| - 1], x) {
      k := Place(q, s[..|s| - 1], x);
    }
  }

  lemma InsertOnce(s: seq<int>, members: set<int>, x: int, k: int)
    requires ListsOnce(s, members) && x !in members && 0 <= k <= |s|
    ensures ListsOnce(s[..k] + [x] + s[k..], members + {x})
  {
    var r := s[..k] + [x] + s[k..];
    assert s == s[..k] + s[k..];
    forall y ensures y in r <==> y in members + {x} {
      assert y in r <==> y in s || y == x;
    }
    forall i, j | 0 <= i < j < |r| ensures r[i] != r[j] {
      var (a, b) := (if i < k then i else i - 1, if j < k then j else j - 1);
      assert i != k ==> r[i] == s[a] && s[a] in s;
      assert j != k ==> r[j] == s[b] && s[b] in s;
    }
  }

  /** Two with the same cleaned name can change places. */
  lemma Exchange(q: Queue, s: seq<int>, members: set<int>, i: int, j: int)
    requires Sorted(q, s) && ListsOnce(s, members) && 0 <= i < j < |s| && KeyOf(q, s[i]) == KeyOf(q, s[j])
    ensures Sorted(q, s[i := s[j]][j := s[i]]) && ListsOnce(s[i := s[j]][j := s[i]], members)
  {
    var r := s[i := s[j]][j := s[i]];
    assert forall k :: 0 <= k < |s| ==> KeyOf(q, r[k]) == KeyOf(q, s[k]);
    forall a, b | 0 <= a < b < |r| ensures NotAfter(q, r[a], r[b]) {
      assert NotAfter(q, s[a], s[b]);
    }
    forall x ensures x in r <==> x in members {
      if x in s {
        var k :| 0 <= k < |s| && s[k] == x;
        assert r[if k == i then j else if k == j then i else k] == x;
      }
      if x in r {
        var k :| 0 <= k < |r| && r[k] == x;
        assert s[if k == i then j else if k == j then i else k] == x;
      }
    }
  }

  /** The exchange changes the text unless the two hashes, of equal length, are equal. */
  lemma ExchangeTells(q: Queue, t: int, hashes: map<int, string>, s: seq<int>, i: int, j: int)
    requires 0 <= i < j < |s|
    requires |Piece(q, t, hashes, s[i])| == |Piece(q, t, hashes, s[j])|
    requires Text(q, t, hashes, s) == Text(q, t, hashes, s[i := s[j]][j := s[i]])
    ensures Piece(q, t, hashes, s[i]) == Piece(q, t, hashes, s[j])
  {
    var r := s[i := s[j]][j := s[i]];
    StartOf(q, t, hashes, s, i);
    StartOf(q, t, hashes, r, i);
    assert r[..i] == s[..i] && r[i] == s[j];
    var w, a, b := Text(q, t, hashes, s[..i]), Piece(q, t, hashes, s[i]), Piece(q, t, hashes, s[j]);
    var x, y := Text(q, t, hashes, s[i + 1..]), Text(q, t, hashes, r[i + 1..]);
    var whole := w + a + x;
    assert whole == w + b + y;
    assert whole[|w|..|w| + |a|] == a && (w + b + y)[|w|..|w| + |b|] == b;
  }

  lemma StartOf(q: Queue, t: int, hashes: map<int, string>, s: seq<int>, i: int)
    requires 0 <= i < |s|
    ensures Text(q, t, hashes, s) == Text(q, t, hashes, s[..i]) + Piece(q, t, hashes, s[i])
      + Text(q, t, hashes, s[i + 1..])
  {
    assert s == s[..i] + [s[i]] + s[i + 1..];
    TextJoin(q, t, hashes, s[..i] + [s[i]], s[i + 1..]);
    TextJoin(q, t, hashes, s[..i], [s[i]]);
    TextOne(q, t, hashes, s[i]);
  }

  /** Digests have one length. */
  ghost predicate OneLength(hashes: map<int, string>) {
    forall a, b :: a in hashes && b in hashes ==> |hashes[a]| == |hashes[b]|
  }

  /**
   * The text digested for a task is the same for every listing of its
   * dependencies exactly if those that are kept and have equal cleaned names
   * have equal hashes.
   */
  lemma TextIffTiesAgree(q: Queue, t: int, hashes: map<int, string>)
    requires Sound(q) && 0 <= t < |q.depends| && OneLength(hashes)
    ensures OneText(q, t, hashes) <==> TiesAgree(q, t, hashes, q.depends[t])
  {
    hide Sorted;
    var members := q.depends[t];
    if TiesAgree(q, t, hashes, members) {
      forall s, s' | Listing(q, t, s) && Listing(q, t, s') ensures Text(q, t, hashes, s) == Text(q, t, hashes, s') {
        SameText(q, t, hashes, s, s', members);
      }
    }
    if OneText(q, t, hashes) {
      forall a, b | Tied(q, t, hashes, members, a, b) ensures hashes[a] == hashes[b] {
        if a != b {
          ExchangeTies(q, t, hashes, a, b);
        }
      }
    }
  }

  lemma ExchangeTies(q: Queue, t: int, hashes: map<int, string>, a: int, b: int)
    requires Sound(q) && 0 <= t < |q.depends| && OneLength(hashes) && OneText(q, t, hashes)
    requires Tied(q, t, hashes, q.depends[t], a, b) && a != b
    ensures hashes[a] == hashes[b]
  {
    hide Sorted;
    var s := SortedExists(q, q.depends[t]);
    var i :| 0 <= i < |s| && s[i] == a;
    var j :| 0 <= j < |s| && s[j] == b;
    var (lo, hi) := if i < j then (i, j) else (j, i);
    Exchange(q, s, q.depends[t], lo, hi);
    assert Listing(q, t, s) && Listing(q, t, s[lo := s[hi]][hi := s[lo]]);
    ExchangeTells(q, t, hashes, s, lo, hi);
  }

  /** Distinct cleaned names leave no ties. */
  lemma DistinctAgree(q: Queue, t: int, hashes: map<int, string>, members: set<int>)
    requires Distinct(q, members)
    ensures TiesAgree(q, t, hashes, members)
  {
  }

  // ----- whole tables

  /** Two tables that obey the rule for every task are the same, if in one of them ties agree. */
  lemma {:induction false} HashesUnique(q: Queue, order: seq<int>, h: map<int, string>, h': map<int, string>, n: nat)
    requires Sound(q) && InOrder(q, order) && n <= |order|
    requires forall t ::
      0 <= t < |q.depends| ==> HashOk(q, h, t) && HashOk(q, h', t) && TiesAgree(q, t, h, q.depends[t])
    ensures forall i :: 0 <= i < n ==> order[i] in h && order[i] in h' && h[order[i]] == h'[order[i]]
  {
    if n > 0 {
      HashesUnique(q, order, h, h', n - 1);
      var t := order[n - 1];
      assert HashOk(q, h, t) && HashOk(q, h', t);
      forall d | d in q.depends[t] ensures d in h && d in h' && h[d] == h'[d] {
        assert d in order[..n - 1];
        assert HashOk(q, h, d) && HashOk(q, h', d);
      }
      SameHash(q, h, h', t);
    }
  }

  lemma SameHash(q: Queue, h: map<int, string>, h': map<int, string>, t: int)
    requires Sound(q) && 0 <= t < |q.depends| && HashOk(q, h, t) && HashOk(q, h', t) && TiesAgree(q, t, h, q.depends[t])
    requires forall d :: d in q.depends[t] ==> d in h && d in h' && h[d] == h'[d]
    ensures h[t] == h'[t]
  {
    hide TiesAgree;
    var s :| HashedFrom(q, h, t, h[t], s);
    var s' :| HashedFrom(q, h', t, h'[t], s');
    GatheredSame(q, t, s', h, h');
    GatheredIsText(q, t, h, s);
    GatheredIsText(q, t, h, s');
    SameText(q, t, h, s, s', q.depends[t]);
  }

  /** In particular where the dependencies of every task have distinct cleaned names. */
  lemma DistinctUnique(q: Queue, order: seq<int>, h: map<int, string>, h': map<int, string>)
    requires Sound(q) && InOrder(q, order)
    requires forall t :: 0 <= t < |q.depends| ==> HashOk(q, h, t) && HashOk(q, h', t) && Distinct(q, q.depends[t])
    ensures forall t :: t in order ==> t in h && t in h' && h[t] == h'[t]
  {
    hide TiesAgree;
    hide HashOk;
    hide Distinct;
    forall t | 0 <= t < |q.depends| ensures TiesAgree(q, t, h, q.depends[t]) {
      assert HashOk(q, h, t) && Distinct(q, q.depends[t]);
      DistinctAgree(q, t, h, q.depends[t]);
    }
    HashesUnique(q, order, h, h', |order|);
  }

  // ----- a queue with two tables

  /** A digest of one length: the last character of the text. */
  function LastChar(text: string): string {
    if text == "" then "0" else [text[|text| - 1]]
  }

  /** Two files of the same name in different directories, and a task that depends on the task of each. */
  function Twins(): Queue {
    Queue(["/a/x.do_b", "/b/x.do_b", "/c/y.do_b"], [{}, {}, {0, 1}], ["0", "1", "2"], {(2, 0), (2, 1)}, LastChar)
  }

  /** Two leaves that cannot be told apart by name, and a task that depends on both. */
  ghost predicate TwinShape(q: Queue) {
    && |q.name| == 3 && q.depends == [{}, {}, {0, 1}] && q.base == ["0", "1", "2"] && q.kept == {(2, 0), (2, 1)}
    && KeyOf(q, 0) == KeyOf(q, 1)
    && q.md5("0") == "0" && q.md5("1") == "1" && q.md5("201") == "1" && q.md5("210") == "0"
  }

  lemma {:induction false} AfterLastIs(u: string, v: string, c: char)
    requires c !in v
    ensures AfterLast(u + [c] + v, c) == v
    decreases |v|
  {
    var s := u + [c] + v;
    if v != [] {
      var last := |v| - 1;
      assert s[..|s| - 1] == u + [c] + v[..last] && v == v[..last] + [v[last]];
      AfterLastIs(u, v[..last], c);
    }
  }

  lemma PlainName(dir: string, file: string)
    requires '/' !in file && dir != "" && dir[0] == '/'
    ensures CleanBasepath(dir + "/" + file) == file
  {
    AfterLastIs(dir, file, '/');
    assert (dir + "/" + file)[0] == '/';
  }

  lemma TwinKeys()
    ensures KeyOf(Twins(), 0) == "x.do_b" && KeyOf(Twins(), 1) == "x.do_b"
  {
    assert "/a" + "/" + "x.do_b" == "/a/x.do_b" && "/b" + "/" + "x.do_b" == "/b/x.do_b";
    PlainName("/a", "x.do_b");
    PlainName("/b", "x.do_b");
  }

  lemma TwinsShaped()
    ensures TwinShape(Twins())
  {
    TwinKeys();
    hide KeyOf;
  }

  lemma TwinLeaf(q: Queue, h: map<int, string>, t: int)
    requires TwinShape(q) && 0 <= t < 2 && t in h && h[t] == q.base[t]
    ensures Sound(q) && HashOk(q, h, t)
  {
    assert q.base[t] + "" == q.base[t];
    assert HashedFrom(q, h, t, h[t], []);
  }

  lemma TwinTop(q: Queue, h: map<int, string>, a: int, b: int)
    requires TwinShape(q) && (a, b) in {(0, 1), (1, 0)}
    requires 0 in h && 1 in h && 2 in h && h[0] == "0" && h[1] == "1" && h[2] == q.base[b]
    ensures Sound(q) && HashOk(q, h, 2)
  {
    hide KeyOf;
    SortedTwice(q, 0, 1);
    var s := [a, b];
    assert s[..1] == [a] && [a][..0] == [] && "" + q.base[a] == q.base[a];
    assert Gathered(q, 2, [a], h) == Some(q.base[a]);
    assert Gathered(q, 2, s, h) == Some(q.base[a] + q.base[b]);
    assert "2" + ("0" + "1") == "201" && "2" + ("1" + "0") == "210";
    assert s[0] == a && s[1] == b && forall x :: x in s <==> x in {0, 1};
    assert HashedFrom(q, h, 2, h[2], [a, b]);
  }

  /** Both listings obey the rule for every task, with digests of one length, and the hash of the last task differs. */
  lemma TwinTables() returns (h: map<int, string>, h': map<int, string>)
    ensures Sound(Twins()) && OneLength(h) && OneLength(h') && h.Keys == h'.Keys == {0, 1, 2}
    ensures forall t :: 0 <= t < 3 ==> HashOk(Twins(), h, t) && HashOk(Twins(), h', t)
    ensures h[0] == h'[0] && h[1] == h'[1] && h[2] != h'[2]
  {
    hide HashOk;
    h, h' := map[0 := "0", 1 := "1", 2 := "1"], map[0 := "0", 1 := "1", 2 := "0"];
    TwinsShaped();
    hide Twins;
    var q := Twins();
    TwinLeaf(q, h, 0);
    TwinLeaf(q, h, 1);
    TwinLeaf(q, h', 0);
    TwinLeaf(q, h', 1);
    TwinTop(q, h, 0, 1);
    TwinTop(q, h', 1, 0);
    assert h[2] == "1" && h'[2] == "0" && "1"[0] != "0"[0];
  }
}
