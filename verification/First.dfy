/** FIRST sets: a "while something changed" loop over lists that grow in place. */
module First {
  import opened Grammar

  // ----- membership in FIRST1 of a string of symbols

  /** t belongs to FIRST1(beta), reading the sets of single symbols from F. */
  ghost predicate InFirst(F: map<Symbol, seq<Symbol>>, beta: seq<Symbol>, t: Symbol) {
    if beta == [] then t == EmptyMark
    else
      && beta[0] in F
      && ((t != EmptyMark && t in F[beta[0]]) || (EmptyMark in F[beta[0]] && InFirst(F, beta[1..], t)))
  }

  ghost predicate Covers(F: map<Symbol, seq<Symbol>>, beta: seq<Symbol>) {
    forall s :: s in beta ==> s in F
  }

  /** What FIRST is for: a form starting with t, or the empty form for the marker. */
  ghost predicate Starts(g: Grammar, form: seq<Symbol>, t: Symbol) {
    if t == EmptyMark then g.Derives(form, [])
    else exists beta :: g.Derives(form, [t] + beta)
  }

  lemma {:induction false} InFirstJoin(F: map<Symbol, seq<Symbol>>, a: seq<Symbol>, b: seq<Symbol>, t: Symbol)
    requires Covers(F, a) && Covers(F, b)
    ensures InFirst(F, a + b, t) <==>
      (t != EmptyMark && InFirst(F, a, t)) || (InFirst(F, a, EmptyMark) && InFirst(F, b, t))
  {
    if a == [] {
      assert a + b == b;
    } else {
      assert (a + b)[0] == a[0] && (a + b)[1..] == a[1..] + b;
      InFirstJoin(F, a[1..], b, t);
    }
  }

  /** Everything listed is derivable. */
  ghost predicate Sound(g: Grammar, F: map<Symbol, seq<Symbol>>) {
    forall x, t :: x in F && t in F[x] ==> Starts(g, [x], t)
  }

  /** No rule would add anything. */
  ghost predicate Saturated(g: Grammar, F: map<Symbol, seq<Symbol>>) {
    forall p :: g.IsRule(p) ==> RuleDone(F, p)
  }

  ghost predicate RuleDone(F: map<Symbol, seq<Symbol>>, p: Production) {
    forall t :: InFirst(F, p.prod, t) ==> p.name in F && t in F[p.name]
  }

  lemma {:induction false} SoundForms(g: Grammar, F: map<Symbol, seq<Symbol>>, beta: seq<Symbol>, t: Symbol)
    requires Sound(g, F) && InFirst(F, beta, t)
    ensures Starts(g, beta, t)
  {
    if beta == [] {
      g.DerivesSelf([]);
    } else {
      var x, rest := beta[0], beta[1..];
      assert beta == [x] + rest;
      if t != EmptyMark && t in F[x] {
        assert Starts(g, [x], t);
        var b :| g.Derives([x], [t] + b);
        g.DerivesSelf(rest);
        g.DerivesBoth([x], [t] + b, rest, rest);
        assert [t] + b + rest == [t] + (b + rest);
      } else {
        SoundForms(g, F, rest, t);
        assert Starts(g, [x], EmptyMark);
        if t == EmptyMark {
          var nothing: seq<Symbol> := [];
          g.DerivesBoth([x], nothing, rest, nothing);
          assert nothing + nothing == nothing;
        } else {
          var b :| g.Derives(rest, [t] + b);
          g.DerivesBoth([x], [], rest, [t] + b);
          assert [] + ([t] + b) == [t] + b;
        }
      }
    }
  }

  /** FIRST membership grows with the part between two fixed contexts. */
  lemma InFirstBetween(F: map<Symbol, seq<Symbol>>, u: seq<Symbol>, x: seq<Symbol>, y: seq<Symbol>, v: seq<Symbol>,
      t: Symbol)
    requires Covers(F, u) && Covers(F, x) && Covers(F, y) && Covers(F, v)
    requires forall s :: InFirst(F, y, s) ==> InFirst(F, x, s)
    requires InFirst(F, u + (y + v), t)
    ensures InFirst(F, u + (x + v), t)
  {
    hide InFirst;
    InFirstJoin(F, u, y + v, t);
    InFirstJoin(F, u, x + v, t);
    InFirstJoin(F, y, v, t);
    InFirstJoin(F, x, v, t);
    InFirstJoin(F, y, v, EmptyMark);
    InFirstJoin(F, x, v, EmptyMark);
  }

  /** Undoing one derivation step keeps FIRST membership, once the sets are saturated. */
  lemma StepBack(g: Grammar, F: map<Symbol, seq<Symbol>>, a: seq<Symbol>, b: seq<Symbol>, t: Symbol)
    requires Saturated(g, F) && g.Step(a, b) && Covers(F, a) && Covers(F, b) && InFirst(F, b, t)
    ensures InFirst(F, a, t)
  {
    var i, p :| g.StepAt(a, b, i, p);
    var u, v := a[..i], a[i + 1..];
    assert a == u + ([p.name] + v) && b == u + (p.prod + v);
    assert RuleDone(F, p);
    forall s | InFirst(F, p.prod, s) ensures InFirst(F, [p.name], s) {
      assert s in F[p.name];
    }
    hide InFirst;
    CoversParts(F, u, [p.name] + v);
    CoversParts(F, u, p.prod + v);
    CoversParts(F, p.prod, v);
    CoversParts(F, [p.name], v);
    InFirstBetween(F, u, [p.name], p.prod, v, t);
  }

  lemma CoversParts(F: map<Symbol, seq<Symbol>>, a: seq<Symbol>, b: seq<Symbol>)
    requires Covers(F, a + b)
    ensures Covers(F, a) && Covers(F, b)
  {
    assert forall s :: s in a || s in b ==> s in a + b;
  }

  lemma StepKnown(g: Grammar, a: seq<Symbol>, b: seq<Symbol>)
    requires g.WellFormed() && g.Knows(a) && g.Step(a, b)
    ensures g.Knows(b)
  {
  }

  lemma {:induction false} Complete(g: Grammar, F: map<Symbol, seq<Symbol>>, form: seq<Symbol>, goal: seq<Symbol>,
      n: nat, t: Symbol)
    requires g.WellFormed() && Saturated(g, F) && g.Knows(form)
    requires forall s :: s in g.terminals || s in g.nonterminals ==> s in F
    requires g.DerivesIn(form, goal, n) && InFirst(F, goal, t)
    ensures InFirst(F, form, t)
    decreases n
  {
    if n > 0 {
      var c :| g.Step(form, c) && g.DerivesIn(c, goal, n - 1);
      StepKnown(g, form, c);
      Complete(g, F, c, goal, n - 1, t);
      StepBack(g, F, form, c, t);
    }
  }

  /** The fixpoint is exact: t is in First[A] iff A derives a form starting with t, the marker iff A derives nothing. */
  ghost predicate Exact(g: Grammar, F: map<Symbol, seq<Symbol>>) {
    forall x, t :: (x in g.terminals || x in g.nonterminals) && (t in g.terminals || t == EmptyMark) ==>
        ExactAt(g, F, x, t)
  }

  ghost predicate ExactAt(g: Grammar, F: map<Symbol, seq<Symbol>>, x: Symbol, t: Symbol) {
    x in F && (t in F[x] <==> Starts(g, [x], t))
  }

  lemma SaturatedExact(g: Grammar, F: map<Symbol, seq<Symbol>>)
    requires g.WellFormed() && Sound(g, F) && Saturated(g, F)
    requires forall t :: t in g.terminals ==> t in F && F[t] == [t]
    requires forall n :: n in g.nonterminals ==> n in F
    ensures Exact(g, F)
  {
    forall x, t | (x in g.terminals || x in g.nonterminals) && (t in g.terminals || t == EmptyMark)
      ensures ExactAt(g, F, x, t)
    {
      assert x in F;
      if !Starts(g, [x], t) {
      } else if t == EmptyMark {
        var n: nat :| g.DerivesIn([x], [], n);
        Complete(g, F, [x], [], n, t);
      } else {
        var beta :| g.Derives([x], [t] + beta);
        var n: nat :| g.DerivesIn([x], [t] + beta, n);
        assert InFirst(F, [t] + beta, t);
        Complete(g, F, [x], [t] + beta, n, t);
      }
      assert [x][1..] == [];
    }
  }

  // ----- the loops

  ghost predicate Entry(g: Grammar, t: Symbol) {
    t in g.terminals || t == EmptyMark
  }

  /** The (nonterminal, symbol) pairs not listed yet: what bounds the number of passes. */
  ghost function Missing(g: Grammar, F: map<Symbol, seq<Symbol>>): set<(Symbol, Symbol)> {
    set n, t | n in g.nonterminals && t in g.terminals + {EmptyMark} && !(n in F && t in F[n]) :: (n, t)
  }

  /** A stretch of the computation only adds pairs, and adds one if it reports a change. */
  ghost predicate Progress(g: Grammar, F0: map<Symbol, seq<Symbol>>, F: map<Symbol, seq<Symbol>>, changed: bool) {
    && Missing(g, F) <= Missing(g, F0)
    && (if changed then Missing(g, F) < Missing(g, F0) else F == F0)
  }

  lemma MissingShrinks(g: Grammar, F: map<Symbol, seq<Symbol>>, n: Symbol, t: Symbol)
    requires n in g.nonterminals && n in F && Entry(g, t) && t !in F[n]
    ensures Missing(g, F[n := F[n] + [t]]) < Missing(g, F)
  {
    var F' := F[n := F[n] + [t]];
    assert (n, t) in Missing(g, F) && (n, t) !in Missing(g, F');
  }

  class FirstSets {
    const g: Grammar
    var First: map<Symbol, seq<Symbol>>

    constructor (g: Grammar)
      ensures this.g == g && First == map[]
    {
      this.g := g;
      First := map[];
    }

    /** The shape of First during compute_first(), and that all it lists is derivable. */
    ghost predicate Valid()
      reads this
    {
      && g.WellFormed()
      && (forall t :: t in g.terminals ==> t in First && First[t] == [t])
      && (forall n :: n in g.nonterminals ==> n in First)
      && (forall x :: x in First ==>
         x in g.terminals || x in g.nonterminals || (x == DollarEnd && First[x] == [DollarEnd]))
      && (forall x, t :: x in First && x != DollarEnd && t in First[x] ==> Entry(g, t))
      && Sound(g, First)
    }

    /** _first(): FIRST1 of a string, without duplicates. */
    method FirstOf(beta: seq<Symbol>) returns (result: seq<Symbol>)
      requires Covers(First, beta)
      ensures forall t :: t in result <==> InFirst(First, beta, t)
      ensures forall i, j :: 0 <= i < j < |result| ==> result[i] != result[j]
    {
      result := [];
      for k := 0 to |beta|
        invariant forall t :: InFirst(First, beta, t) <==> t in result || InFirst(First, beta[k..], t)
        invariant EmptyMark !in result
        invariant forall i, j :: 0 <= i < j < |result| ==> result[i] != result[j]
      {
        var producesEmpty := false;
        var list := First[beta[k]];
        ghost var before := result;
        for m := 0 to |list|
          invariant producesEmpty <==> EmptyMark in list[..m]
          invariant forall t :: t in result <==> t in before || (t != EmptyMark && t in list[..m])
          invariant forall i, j :: 0 <= i < j < |result| ==> result[i] != result[j]
        {
          assert list[..m + 1] == list[..m] + [list[m]];
          if list[m] == EmptyMark {
            producesEmpty := true;
          } else if list[m] !in result {
            result := result + [list[m]];
          }
        }
        assert list[..|list|] == list;
        assert beta[k..][0] == beta[k] && beta[k..][1..] == beta[k + 1..];
        if !producesEmpty {
          return;
        }
      }
      assert beta[|beta|..] == [];
      result := result + [EmptyMark];
    }

    method ComputeFirst()
      requires g.WellFormed() && g.AllDefined()
      requires First == map[] || (Valid() && Saturated(g, First))
      modifies this
      ensures Valid() && Saturated(g, First) && Exact(g, First)
      ensures old(First) != map[] ==> First == old(First)
    {
      if First != map[] {
        SaturatedExact(g, First);
        return;
      }
      First := map t | t in g.terminals :: [t];
      First := First[DollarEnd := [DollarEnd]];
      First := First + map n | n in g.nonterminals :: [];
      forall x, t | x in First && t in First[x] ensures Starts(g, [x], t) {
        g.DerivesSelf([x]);
        assert [x] == [t] + [];
      }

      var someChange := true;
      while someChange
        invariant Valid()
        invariant !someChange ==> Saturated(g, First)
        decreases Missing(g, First), someChange
      {
        someChange := Pass();
      }
      SaturatedExact(g, First);
    }

    /** One sweep over all rules; it reports no change only if there is nothing left to add. */
    method Pass() returns (someChange: bool)
      requires Valid()
      modifies this
      ensures Valid() && Progress(g, old(First), First, someChange)
      ensures !someChange ==> Saturated(g, First)
    {
      ghost var F0 := First;
      someChange := false;
      for i := 0 to |g.nonterminals|
        invariant Valid() && Progress(g, F0, First, someChange)
        invariant !someChange ==> forall k, p ::
            0 <= k < i && p in g.Prodnames(g.nonterminals[k]) ==> RuleDone(First, p)
      {
        var changed := AddRules(g.nonterminals[i]);
        someChange := someChange || changed;
      }
      if !someChange {
        forall p | g.IsRule(p) ensures RuleDone(First, p) {
          assert p.name in g.nonterminals;
          var k :| 0 <= k < |g.nonterminals| && g.nonterminals[k] == p.name;
          assert p in g.Prodnames(g.nonterminals[k]);
        }
      }
    }

    /** for p in self.Prodnames[n] */
    method AddRules(n: Symbol) returns (someChange: bool)
      requires Valid()
      modifies this
      ensures Valid() && Progress(g, old(First), First, someChange)
      ensures !someChange ==> forall p :: p in g.Prodnames(n) ==> RuleDone(First, p)
    {
      ghost var F0 := First;
      someChange := false;
      var rules := g.Prodnames(n);
      for j := 0 to |rules|
        invariant Valid() && Progress(g, F0, First, someChange)
        invariant !someChange ==> forall k :: 0 <= k < j ==> RuleDone(First, rules[k])
      {
        var changed := AddRule(rules[j]);
        someChange := someChange || changed;
      }
    }

    /** for f in self._first(p.prod): add f to First[p.name] */
    method AddRule(p: Production) returns (changed: bool)
      requires Valid() && g.IsRule(p)
      modifies this
      ensures Valid() && Progress(g, old(First), First, changed)
      ensures !changed ==> RuleDone(First, p)
    {
      changed := false;
      assert p.name in g.nonterminals;
      var found := FirstOf(p.prod);
      ghost var F0 := First;
      forall t | t in found ensures Entry(g, t) && Starts(g, [p.name], t) {
        FoundStarts(g, First, p, t);
      }
      for m := 0 to |found|
        invariant Valid() && Progress(g, F0, First, changed)
        invariant !changed ==> forall t :: t in found[..m] ==> t in First[p.name]
      {
        assert found[..m + 1] == found[..m] + [found[m]];
        if found[m] !in First[p.name] {
          assert found[m] in found;
          MissingShrinks(g, First, p.name, found[m]);
          First := First[p.name := First[p.name] + [found[m]]];
          changed := true;
        }
      }
      assert found[..|found|] == found;
    }
  }

  lemma FoundStarts(g: Grammar, F: map<Symbol, seq<Symbol>>, p: Production, t: Symbol)
    requires g.WellFormed() && g.IsRule(p) && Sound(g, F) && InFirst(F, p.prod, t)
    requires forall x, f :: x in F && x != DollarEnd && f in F[x] ==> Entry(g, f)
    ensures Entry(g, t) && Starts(g, [p.name], t)
  {
    SoundForms(g, F, p.prod, t);
    if t == EmptyMark {
      g.DerivesRule(p, []);
    } else {
      var beta :| g.Derives(p.prod, [t] + beta);
      g.DerivesRule(p, [t] + beta);
      InFirstEntry(g, F, p.prod, t);
    }
  }

  lemma {:induction false} InFirstEntry(g: Grammar, F: map<Symbol, seq<Symbol>>, beta: seq<Symbol>, t: Symbol)
    requires InFirst(F, beta, t) && DollarEnd !in beta
    requires forall x, f :: x in F && x != DollarEnd && f in F[x] ==> Entry(g, f)
    ensures Entry(g, t)
  {
    if beta != [] && !(t != EmptyMark && t in F[beta[0]]) {
      InFirstEntry(g, F, beta[1..], t);
    }
  }
}
