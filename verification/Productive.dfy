/**
 * Nullable nonterminals and nonterminals without terminal strings. Both
 * computations ask which symbols derive a word over some base alphabet: none
 * for the first, the terminals for the second.
 */
module Productive {
  import opened Finite
  import opened Grammar
  import First

  ghost predicate Over(base: set<Symbol>, w: seq<Symbol>) {
    forall s :: s in w ==> s in base
  }

  /** form derives some word over base. */
  ghost predicate Generates(g: Grammar, base: set<Symbol>, form: seq<Symbol>) {
    exists w :: Over(base, w) && g.Derives(form, w)
  }

  /** A rule with every right-hand symbol in s has its left-hand symbol in s. */
  ghost predicate RuleDone(s: set<Symbol>, p: Production) {
    Over(s, p.prod) ==> p.name in s
  }

  ghost predicate Closed(g: Grammar, base: set<Symbol>, s: set<Symbol>) {
    base <= s && forall p :: g.IsRule(p) ==> RuleDone(s, p)
  }

  ghost predicate Sound(g: Grammar, base: set<Symbol>, s: set<Symbol>) {
    forall x :: x in s ==> Generates(g, base, [x])
  }

  lemma {:induction false} FormsGenerate(g: Grammar, base: set<Symbol>, s: set<Symbol>, form: seq<Symbol>)
    requires Sound(g, base, s) && Over(s, form)
    ensures Generates(g, base, form)
  {
    if form == [] {
      g.DerivesSelf([]);
      assert Over(base, []);
    } else {
      FormsGenerate(g, base, s, form[1..]);
      var v :| Over(base, v) && g.Derives(form[1..], v);
      assert Generates(g, base, [form[0]]);
      var u :| Over(base, u) && g.Derives([form[0]], u);
      g.DerivesBoth([form[0]], u, form[1..], v);
      assert [form[0]] + form[1..] == form && Over(base, u + v);
    }
  }

  lemma RuleGenerates(g: Grammar, base: set<Symbol>, s: set<Symbol>, p: Production)
    requires Sound(g, base, s) && Over(s, p.prod) && g.IsRule(p)
    ensures Sound(g, base, s + {p.name})
  {
    FormsGenerate(g, base, s, p.prod);
    var w :| Over(base, w) && g.Derives(p.prod, w);
    g.DerivesRule(p, w);
  }

  lemma {:induction false} ClosedComplete(g: Grammar, base: set<Symbol>, s: set<Symbol>, form: seq<Symbol>,
      w: seq<Symbol>, n: nat)
    requires Closed(g, base, s) && Over(base, w) && g.DerivesIn(form, w, n)
    ensures Over(s, form)
    decreases n
  {
    if n > 0 {
      var c :| g.Step(form, c) && g.DerivesIn(c, w, n - 1);
      ClosedComplete(g, base, s, c, w, n - 1);
      var i, p :| g.StepAt(form, c, i, p);
      assert forall x :: x in form[..i] + p.prod + form[i + 1..] ==> x in s;
      assert forall k :: 0 <= k < i ==> form[k] in form[..i];
      assert forall k :: i < k < |form| ==> form[i + 1..][k - i - 1] == form[k];
      assert RuleDone(s, p);
      forall k | 0 <= k < |form| ensures form[k] in s {
      }
    }
  }

  /** A sound closed set is exactly the set of symbols that generate a word over base. */
  lemma ClosedExact(g: Grammar, base: set<Symbol>, s: set<Symbol>, x: Symbol)
    requires Sound(g, base, s) && Closed(g, base, s)
    ensures x in s <==> Generates(g, base, [x])
  {
    if Generates(g, base, [x]) {
      var w :| Over(base, w) && g.Derives([x], w);
      var n: nat :| g.DerivesIn([x], w, n);
      ClosedComplete(g, base, s, [x], w, n);
      assert x in [x];
    }
  }

  lemma BaseGenerates(g: Grammar, base: set<Symbol>)
    ensures Sound(g, base, base)
  {
    forall x | x in base ensures Generates(g, base, [x]) {
      g.DerivesSelf([x]);
      assert Over(base, [x]);
    }
  }

  // ----- compute_nullable_nonterminals()

  method ComputeNullable(g: Grammar) returns (nullable: set<Symbol>)
    requires g.WellFormed()
    ensures forall x :: x in nullable <==> g.Derives([x], [])
  {
    nullable := {};
    var numNullable := 0;
    ghost var bound := set n | n in g.nonterminals;
    while true
      invariant Sound(g, {}, nullable) && nullable <= bound && numNullable == |nullable| <= |bound|
      decreases |bound| - numNullable
    {
      ghost var before := nullable;
      for k := 1 to |g.productions|
        invariant Sound(g, {}, nullable) && before <= nullable <= bound
        invariant nullable == before ==> forall i :: 1 <= i < k ==> RuleDone(before, g.productions[i])
      {
        var p := g.productions[k];
        if |p.prod| == 0 {
          RuleGenerates(g, {}, nullable, p);
          nullable := nullable + {p.name};
          continue;
        }
        var j := 0;
        while j < |p.prod| && p.prod[j] in nullable
          invariant 0 <= j <= |p.prod| && forall i :: 0 <= i < j ==> p.prod[i] in nullable
        {
          j := j + 1;
        }
        if j == |p.prod| {
          RuleGenerates(g, {}, nullable, p);
          nullable := nullable + {p.name};
        } else {
          assert p.prod[j] in p.prod;
        }
      }
      SubsetCard(before, nullable);
      SubsetCard(nullable, bound);
      if |nullable| == numNullable {
        SubsetSameCard(before, nullable);
        break;
      }
      numNullable := |nullable|;
    }
    forall x ensures x in nullable <==> g.Derives([x], []) {
      ClosedExact(g, {}, nullable, x);
      forall w ensures Over({}, w) <==> w == [] {
        assert w != [] ==> w[0] in w;
      }
    }
  }

  /** Nullability agrees with the marker in the FIRST sets. */
  lemma NullableAgrees(g: Grammar, F: map<Symbol, seq<Symbol>>, nullable: set<Symbol>, n: Symbol)
    requires g.WellFormed() && First.Exact(g, F) && n in g.nonterminals
    requires forall x :: x in nullable <==> g.Derives([x], [])
    ensures n in F && (n in nullable <==> EmptyMark in F[n])
  {
    assert First.ExactAt(g, F, n, EmptyMark);
    assert First.Starts(g, [n], EmptyMark) <==> g.Derives([n], []);
  }

  // ----- infinite_cycles()

  ghost function Marked(terminates: map<Symbol, bool>): set<Symbol> {
    set s | s in terminates && terminates[s]
  }

  /** for s in p.prod: if not terminates[s]: break; else: ... */
  method Terminates(terminates: map<Symbol, bool>, form: seq<Symbol>) returns (yes: bool)
    requires forall s :: s in form ==> s in terminates
    ensures yes <==> Over(Marked(terminates), form)
  {
    for k := 0 to |form|
      invariant forall i :: 0 <= i < k ==> terminates[form[i]]
    {
      if !terminates[form[k]] {
        assert form[k] in form && form[k] !in Marked(terminates);
        return false;
      }
    }
    return true;
  }

  /** The state of the marking loop: everything known has an entry, and the marked symbols are productive. */
  ghost predicate Marking(g: Grammar, terminates: map<Symbol, bool>) {
    && g.WellFormed()
    && terminates.Keys == g.terminals + {DollarEnd} + (set n | n in g.nonterminals)
    && g.terminals + {DollarEnd} <= Marked(terminates)
    && Sound(g, g.terminals + {DollarEnd}, Marked(terminates))
  }

  method InfiniteCycles(g: Grammar) returns (infinite: seq<Symbol>)
    requires g.WellFormed()
    ensures forall n :: n in infinite <==>
      n in g.nonterminals && g.Prodnames(n) != [] && !Generates(g, g.terminals + {DollarEnd}, [n])
  {
    ghost var base := g.terminals + {DollarEnd};
    var terminates := map t | t in g.terminals :: true;
    terminates := terminates[DollarEnd := true];
    terminates := terminates + map n | n in g.nonterminals :: false;
    assert Marked(terminates) == base;
    BaseGenerates(g, base);

    var someChange := true;
    while someChange
      invariant Marking(g, terminates)
      invariant !someChange ==> Closed(g, base, Marked(terminates))
      decreases terminates.Keys - Marked(terminates), someChange
    {
      someChange, terminates := MarkingPass(g, terminates);
    }

    infinite := [];
    for k := 0 to |g.nonterminals|
      invariant forall n :: n in infinite <==> n in g.nonterminals[..k] && g.Prodnames(n) != [] && !terminates[n]
    {
      assert g.nonterminals[..k + 1] == g.nonterminals[..k] + [g.nonterminals[k]];
      var n := g.nonterminals[k];
      if !terminates[n] && g.Prodnames(n) != [] {
        infinite := infinite + [n];
      }
    }
    assert g.nonterminals[..|g.nonterminals|] == g.nonterminals;
    forall n | n in g.nonterminals ensures terminates[n] <==> Generates(g, base, [n]) {
      ClosedExact(g, base, Marked(terminates), n);
    }
  }

  /** for (n,pl) in self.Prodnames.items() */
  method MarkingPass(g: Grammar, before: map<Symbol, bool>) returns (someChange: bool, terminates: map<Symbol, bool>)
    requires Marking(g, before)
    ensures Marking(g, terminates) && Marked(before) <= Marked(terminates)
    ensures someChange ==> Marked(before) < Marked(terminates)
    ensures !someChange ==> Closed(g, g.terminals + {DollarEnd}, Marked(terminates))
  {
    terminates := before;
    someChange := false;
    for i := 0 to |g.nonterminals|
      invariant Marking(g, terminates) && Marked(before) <= Marked(terminates)
      invariant someChange ==> Marked(before) < Marked(terminates)
      invariant !someChange ==> terminates == before
      invariant !someChange ==> forall k, p ::
          0 <= k < i && p in g.Prodnames(g.nonterminals[k]) ==> RuleDone(Marked(before), p)
    {
      var changed;
      changed, terminates := MarkOne(g, g.nonterminals[i], terminates);
      someChange := someChange || changed;
    }
    if !someChange {
      forall p | g.IsRule(p) ensures RuleDone(Marked(before), p) {
        var k :| 0 <= k < |g.nonterminals| && g.nonterminals[k] == p.name;
        assert p in g.Prodnames(g.nonterminals[k]);
      }
    }
  }

  /** The loop over the productions of n; it stops at the first one that terminates. */
  method MarkOne(g: Grammar, n: Symbol, before: map<Symbol, bool>)
    returns (changed: bool, terminates: map<Symbol, bool>)
    requires Marking(g, before) && n in g.nonterminals
    ensures Marking(g, terminates) && Marked(before) <= Marked(terminates)
    ensures if changed then Marked(before) < Marked(terminates) else terminates == before
    ensures !changed ==> forall p :: p in g.Prodnames(n) ==> RuleDone(Marked(before), p)
  {
    terminates := before;
    changed := false;
    var rules := g.Prodnames(n);
    for j := 0 to |rules|
      invariant terminates == before && !changed
      invariant forall k :: 0 <= k < j ==> RuleDone(Marked(before), rules[k])
    {
      var p := rules[j];
      assert p in rules && g.IsRule(p) && p.name == n;
      var yes := Terminates(terminates, p.prod);
      if yes {
        if !terminates[n] {
          RuleGenerates(g, g.terminals + {DollarEnd}, Marked(terminates), p);
          terminates := terminates[n := true];
          assert Marked(terminates) == Marked(before) + {n};
          assert n !in Marked(before);
          changed := true;
        }
        return;
      }
    }
  }
}
