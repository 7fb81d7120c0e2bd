/** Context-free grammars as the parser generator holds them, and what they derive. */
module Grammar {

  /**
   * Grammar symbols. The last three are the generator's own names '$end',
   * '<empty>' and "S'", which no identifier or literal token can spell.
   */
  datatype Symbol = Name(text: string) | DollarEnd | EmptyMark | AugStart

  datatype Assoc = Left | Right | NonAssoc

  datatype Prec = Prec(assoc: Assoc, level: int)

  datatype Production = Production(name: Symbol, prod: seq<Symbol>, prec: Prec, line: int)

  datatype Grammar = Grammar(productions: seq<Production>, terminals: set<Symbol>, nonterminals: seq<Symbol>,
                             precedence: map<Symbol, Prec>)
  {
    /** What add_production() and set_start() establish. */
    ghost predicate WellFormed() {
      && |productions| > 0
      && productions[0].name == AugStart && |productions[0].prod| == 1
      && (forall i :: 0 <= i < |productions| ==> Knows(productions[i].prod))
      && (forall i :: 1 <= i < |productions| ==> productions[i].name in nonterminals)
      && (forall t :: t in terminals ==> t.Name? && t !in nonterminals)
      && (forall n :: n in nonterminals ==> n.Name?)
    }

    ghost predicate Knows(form: seq<Symbol>) {
      forall s :: s in form ==> s in terminals || s in nonterminals
    }

    /** No nonterminal is used without a rule of its own. */
    ghost predicate AllDefined() {
      forall n :: n in nonterminals ==> Prodnames(n) != []
    }

    /** The productions of n, in order; production 0 is not among them. */
    function Prodnames(n: Symbol): (ps: seq<Production>)
      ensures forall p :: p in ps <==> IsRule(p) && p.name == n
    {
      NamedFrom(n, 1)
    }

    function NamedFrom(n: Symbol, i: nat): (ps: seq<Production>)
      ensures forall p :: p in ps <==> p.name == n && exists k :: i <= k < |productions| && productions[k] == p
      decreases |productions| - i
    {
      if i >= |productions| then []
      else if productions[i].name == n then [productions[i]] + NamedFrom(n, i + 1)
      else NamedFrom(n, i + 1)
    }

    ghost predicate IsRule(p: Production) {
      exists k :: 1 <= k < |productions| && productions[k] == p
    }

    // ----- derivations

    /** b comes from a by rewriting the nonterminal at i with rule p. */
    ghost predicate StepAt(a: seq<Symbol>, b: seq<Symbol>, i: int, p: Production) {
      0 <= i < |a| && IsRule(p) && a[i] == p.name && b == a[..i] + p.prod + a[i + 1..]
    }

    ghost predicate Step(a: seq<Symbol>, b: seq<Symbol>) {
      exists i, p :: StepAt(a, b, i, p)
    }

    ghost predicate DerivesIn(a: seq<Symbol>, b: seq<Symbol>, n: nat)
      decreases n
    {
      if n == 0 then a == b else exists c :: Step(a, c) && DerivesIn(c, b, n - 1)
    }

    ghost predicate Derives(a: seq<Symbol>, b: seq<Symbol>) {
      exists n: nat :: DerivesIn(a, b, n)
    }

    lemma StepInContext(u: seq<Symbol>, a: seq<Symbol>, b: seq<Symbol>, v: seq<Symbol>)
      requires Step(a, b)
      ensures Step(u + a + v, u + b + v)
    {
      var i, p :| StepAt(a, b, i, p);
      var x, y := u + a + v, u + b + v;
      assert x[|u| + i] == a[i];
      assert x[..|u| + i] == u + a[..i];
      assert x[|u| + i + 1..] == a[i + 1..] + v;
      assert y == (u + a[..i]) + p.prod + (a[i + 1..] + v);
      assert StepAt(x, y, |u| + i, p);
    }

    lemma {:induction false} DerivesInContext(u: seq<Symbol>, a: seq<Symbol>, b: seq<Symbol>, v: seq<Symbol>, n: nat)
      requires DerivesIn(a, b, n)
      ensures DerivesIn(u + a + v, u + b + v, n)
      decreases n
    {
      if n > 0 {
        var c :| Step(a, c) && DerivesIn(c, b, n - 1);
        StepInContext(u, a, c, v);
        DerivesInContext(u, c, b, v, n - 1);
      }
    }

    lemma {:induction false} DerivesInJoin(a: seq<Symbol>, b: seq<Symbol>, c: seq<Symbol>, m: nat, n: nat)
      requires DerivesIn(a, b, m) && DerivesIn(b, c, n)
      ensures DerivesIn(a, c, m + n)
      decreases m
    {
      if m > 0 {
        var d :| Step(a, d) && DerivesIn(d, b, m - 1);
        DerivesInJoin(d, b, c, m - 1, n);
      }
    }

    lemma DerivesSelf(a: seq<Symbol>)
      ensures Derives(a, a)
    {
      assert DerivesIn(a, a, 0);
    }

    /** Two forms side by side derive side by side. */
    lemma DerivesBoth(a: seq<Symbol>, a': seq<Symbol>, b: seq<Symbol>, b': seq<Symbol>)
      requires Derives(a, a') && Derives(b, b')
      ensures Derives(a + b, a' + b')
    {
      hide Grammar.DerivesIn;
      var m: nat :| DerivesIn(a, a', m);
      var n: nat :| DerivesIn(b, b', n);
      DerivesInContext([], a, a', b, m);
      DerivesInContext(a', b, b', [], n);
      assert [] + a + b == a + b && [] + a' + b == a' + b;
      assert a' + b + [] == a' + b && a' + b' + [] == a' + b';
      DerivesInJoin(a + b, a' + b, a' + b', m, n);
    }

    lemma DerivesRule(p: Production, b: seq<Symbol>)
      requires IsRule(p) && Derives(p.prod, b)
      ensures Derives([p.name], b)
    {
      var n: nat :| DerivesIn(p.prod, b, n);
      assert [p.name][..0] + p.prod + [p.name][1..] == p.prod;
      assert StepAt([p.name], p.prod, 0, p);
      assert Step([p.name], p.prod);
      assert DerivesIn([p.name], b, n + 1);
    }
  }
}
