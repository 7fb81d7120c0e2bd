/** Cardinalities of finite sets and duplicate-free sequences. */
module Finite {

  lemma DistinctCard<T>(s: seq<T>)
    requires forall i, j :: 0 <= i < j < |s| ==> s[i] != s[j]
    ensures |set x | x in s| == |s|
  {
    if s != [] {
      var last := |s| - 1;
      DistinctCard(s[..last]);
      assert (set x | x in s) == (set x | x in s[..last]) + {s[last]};
    }
  }

  lemma SetCard<T>(s: seq<T>)
    ensures |set x | x in s| <= |s|
  {
    if s != [] {
      var last := |s| - 1;
      SetCard(s[..last]);
      assert (set x | x in s) == (set x | x in s[..last]) + {s[last]};
    }
  }

  lemma SubsetCard<T>(a: set<T>, b: set<T>)
    requires a <= b
    ensures |a| <= |b|
  {
    if a != {} {
      var x :| x in a;
      SubsetCard(a - {x}, b - {x});
    }
  }

  lemma SubsetSameCard<T>(a: set<T>, b: set<T>)
    requires a <= b && |a| == |b|
    ensures a == b
  {
    assert |b - a| == |b| - |a|;
  }

  ghost predicate NoRepeats<T>(s: seq<T>) {
    forall i, j :: 0 <= i < j < |s| ==> s[i] != s[j]
  }

  /** The numbers below n, as integers. */
  function Range(n: nat): (s: set<int>)
    ensures forall x :: x in s <==> 0 <= x < n
    ensures |s| == n
  {
    if n == 0 then {} else Range(n - 1) + {n - 1}
  }

  /** The numbers below n. */
  function Below(n: nat): (s: set<nat>)
    ensures forall x: nat :: x in s <==> x < n
    ensures |s| == n
  {
    if n == 0 then {} else Below(n - 1) + {n - 1}
  }

  method Pick<T>(s: set<T>) returns (x: T)
    requires s != {}
    ensures x in s
  {
    x :| x in s;
  }

  ghost function AnyOf<T>(s: set<T>): (x: T)
    requires s != {}
    ensures x in s
  {
    var x :| x in s; x
  }

  ghost function Sum<T>(s: set<T>, f: T -> int): int {
    if s == {} then 0 else f(AnyOf(s)) + Sum(s - {AnyOf(s)}, f)
  }

  lemma {:induction false} SumAdd<T>(s: set<T>, x: T, f: T -> int)
    requires x !in s
    ensures Sum(s + {x}, f) == Sum(s, f) + f(x)
    decreases s
  {
    var all := s + {x};
    var y := AnyOf(all);
    if y == x {
      assert all - {y} == s;
    } else {
      SumAdd(s - {y}, x, f);
      SumAdd(s - {y}, y, f);
      assert all - {y} == s - {y} + {x} && s - {y} + {y} == s;
    }
  }

  /** What adding x, a member of a, to p does to the part of a outside and inside p. */
  lemma OneMore<T>(a: set<T>, p: set<T>, x: T)
    requires x in a && x !in p
    ensures |a - (p + {x})| == |a - p| - 1
    ensures a <= p + {x} <==> |a - p| == 1
    ensures a * (p + {x}) == a * p + {x}
    ensures !(a <= p)
  {
    assert a - (p + {x}) == (a - p) - {x};
    assert a <= p + {x} <==> a - (p + {x}) == {};
  }

  lemma NotAMember<T>(a: set<T>, p: set<T>, x: T)
    requires x !in a
    ensures a - (p + {x}) == a - p && a * (p + {x}) == a * p && (a <= p + {x} <==> a <= p)
  {
  }

  /** Moving x from q to p, with e joining q. */
  lemma Regroup<T>(p: set<T>, q: set<T>, e: set<T>, x: T)
    requires x in q && p !! q && e !! p + q
    ensures p + {x} !! q - {x} + e
    ensures p + {x} + (q - {x} + e) == p + q + e
    ensures |p + {x}| == |p| + 1
  {
  }

  lemma ThreeParts<T>(all: set<T>, a: set<T>, b: set<T>, c: set<T>)
    requires forall x :: x in all <==> x in a + b + c
    requires a !! b && a !! c && b !! c
    ensures |all| == |a| + |b| + |c|
  {
    assert all == a + b + c;
  }

  lemma {:induction false} InjectiveValues<K, V>(m: map<K, V>)
    requires forall p, q :: p in m && q in m && p != q ==> m[p] != m[q]
    ensures |m.Values| == |m|
    decreases |m|
  {
    if |m| == 0 {
      assert m.Values == {};
    } else {
      var p := AnyOf(m.Keys);
      var rest := m - {p};
      assert m.Keys == rest.Keys + {p};
      InjectiveValues(rest);
      forall v | v in m.Values ensures v in rest.Values + {m[p]} {
        var k :| k in m && m[k] == v;
        assert k == p || (k in rest && rest[k] == v);
      }
      assert m.Values == rest.Values + {m[p]};
    }
  }

  lemma ValuesAdd<K, V>(m: map<K, V>, k: K, v: V)
    requires k !in m
    ensures m[k := v].Values == m.Values + {v}
    ensures |m[k := v]| == |m| + 1
  {
    var n := m[k := v];
    assert n[k] == v;
    forall w | w in m.Values ensures w in n.Values {
      var q :| q in m && m[q] == w;
      assert n[q] == w;
    }
    assert n.Keys == m.Keys + {k};
  }

  lemma ValuesRemove<K, V>(m: map<K, V>, k: K)
    requires k in m && forall q :: q in m && q != k ==> m[q] != m[k]
    ensures (m - {k}).Values == m.Values - {m[k]}
    ensures |m - {k}| == |m| - 1
  {
    var n := m - {k};
    forall w | w in m.Values && w != m[k] ensures w in n.Values {
      var q :| q in m && m[q] == w;
      assert n[q] == w;
    }
    assert n.Keys == m.Keys - {k};
  }

  lemma JoinThird<T>(all: set<T>, a: set<T>, b: set<T>, c: set<T>, x: T)
    requires all == a + b + c && a !! b && a !! c && b !! c && x !in all
    ensures all + {x} == a + b + (c + {x}) && a !! c + {x} && b !! c + {x}
  {
  }

  lemma ThirdToFirst<T>(all: set<T>, a: set<T>, b: set<T>, c: set<T>, x: T)
    requires all == a + b + c && a !! b && a !! c && b !! c && x in c
    ensures all == a + {x} + b + (c - {x}) && a + {x} !! b && a + {x} !! c - {x} && b !! c - {x}
    ensures |a + {x}| == |a| + 1
  {
  }

  lemma ThirdToSecond<T>(all: set<T>, a: set<T>, b: set<T>, c: set<T>, x: T)
    requires all == a + b + c && a !! b && a !! c && b !! c && x in c
    ensures all == a + (b + {x}) + (c - {x}) && a !! b + {x} && a !! c - {x} && b + {x} !! c - {x}
    ensures |b + {x}| == |b| + 1
  {
  }

  lemma JoinFirst<T>(all: set<T>, a: set<T>, b: set<T>, c: set<T>, x: T)
    requires all == a + b + c && a !! b && a !! c && b !! c && x !in all
    ensures all + {x} == a + {x} + b + c && a + {x} !! b && a + {x} !! c
    ensures |a + {x}| == |a| + 1
  {
  }

  lemma Outside<T>(a: set<T>, b: set<T>) returns (x: T)
    requires !(a <= b)
    ensures x in a && x !in b
  {
    x :| x in a && x !in b;
  }

  lemma MinusNothing<T>(a: set<T>)
    ensures a - {} == a
  {
  }

  lemma TakeOut<T>(all: set<T>, rest: set<T>, x: T)
    requires x in rest && rest <= all
    ensures all - (rest - {x}) == all - rest + {x}
  {
  }

  lemma NothingOutside<T>(a: set<T>, b: set<T>)
    requires a - b == {}
    ensures a <= b
  {
    forall x | x in a ensures x in b {
      assert x !in a - b;
    }
  }
}
