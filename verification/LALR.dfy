/**
 * The lookaheads that the generator computes are adequate, and the tables built for them accept what
 * the grammar derives.
 */
module LALR {
  import opened Grammar
  import opened LR0
  import opened LRTable
  import opened LRParser
  import opened LRComplete
  import opened Lookaheads
  import Digraph
  import Paths

  // ----- the equations that the sets solve

  lemma ReadsEquation(g: Grammar, A: Automaton, s: Sets, m: map<(int, Item), seq<Symbol>>, x: Trans, a: Symbol)
    requires Lalr(g, A, s, m) && IsTrans(g, A, x)
    ensures x in s.read
    ensures DirectlyReads(g, A, x, a) ==> a in s.read[x]
    ensures forall y :: Reads(A, s.nullable, x, y) && y in s.read && a in s.read[y] ==> a in s.read[x]
  {
    hide DirectlyReads;
    hide Attached;
    hide LookDict;
    hide FollowProblem;
    assert x in s.alongReads.nodes;
    Digraph.SolutionEquation(s.alongReads, s.read, x, a);
  }

  lemma ReadsDirect(g: Grammar, A: Automaton, s: Sets, m: map<(int, Item), seq<Symbol>>, x: Trans, a: Symbol)
    requires Lalr(g, A, s, m) && IsTrans(g, A, x) && DirectlyReads(g, A, x, a)
    ensures x in s.read && a in s.read[x]
  {
    hide Lalr;
    ReadsEquation(g, A, s, m, x, a);
  }

  lemma ReadsVia(g: Grammar, A: Automaton, s: Sets, m: map<(int, Item), seq<Symbol>>, x: Trans, y: Trans, a: Symbol)
    requires Lalr(g, A, s, m) && IsTrans(g, A, x) && Reads(A, s.nullable, x, y) && y in s.read && a in s.read[y]
    ensures x in s.read && a in s.read[x]
  {
    hide Lalr;
    ReadsEquation(g, A, s, m, x, a);
  }

  lemma FollowEquation(g: Grammar, A: Automaton, s: Sets, m: map<(int, Item), seq<Symbol>>, x: Trans, a: Symbol)
    requires Lalr(g, A, s, m) && IsTrans(g, A, x)
    ensures x in s.follow
    ensures x in s.read && a in s.read[x] ==> a in s.follow[x]
    ensures forall y :: Includes(g, A, s.nullable, x, y) && y in s.follow && a in s.follow[y] ==> a in s.follow[x]
  {
    hide Includes;
    hide Attached;
    hide LookDict;
    hide ReadProblem;
    assert x in s.alongIncludes.nodes;
    Digraph.SolutionEquation(s.alongIncludes, s.follow, x, a);
  }

  // ----- how a nonterminal came into a form

  /** x is the d-th symbol of rule k, applied after alpha0 and before v0; by now the rest of the rule has become u. */
  ghost predicate Introduced(g: Grammar, alpha: seq<Symbol>, x: Symbol, y: seq<Symbol>,
                             todo0: seq<int>, alpha0: seq<Symbol>, k: int, d: int, v0: seq<Symbol>, u: seq<Symbol>,
                               n: nat) {
    && 0 < k < |g.productions| && 0 <= d < |g.productions[k].prod| && g.productions[k].prod[d] == x
    && Derived(g, todo0, alpha0, g.productions[k].name, v0)
    && alpha == alpha0 + g.productions[k].prod[..d] && y == u + v0
    && g.DerivesIn(g.productions[k].prod[d + 1..], u, n)
  }

  lemma AppendStep(g: Grammar, a: seq<Symbol>, b: seq<Symbol>, c: seq<Symbol>, n: nat)
    requires g.DerivesIn(a, b, n) && g.Step(b, c)
    ensures g.DerivesIn(a, c, n + 1)
  {
    NoStep(g, c, c);
    Prepend(g, b, c, c, 0);
    g.DerivesInJoin(a, b, c, n, 1);
  }

  /** The rightmost nonterminal of gamma + [b] + z cannot stand in a tail without nonterminals. */
  lemma InsideFirst(g: Grammar, gamma: seq<Symbol>, b: Symbol, z: seq<Symbol>, u: seq<Symbol>, v: seq<Symbol>)
    returns (z': seq<Symbol>)
    requires gamma + [b] + z == u + v && b in g.nonterminals && NoNonterminal(g, v)
    ensures u == gamma + [b] + z' && z == z' + v
  {
    var f := u + v;
    assert f[|gamma|] == b;
    assert forall i :: 0 <= i < |v| ==> v[i] == f[|u| + i];
    assert |gamma| < |u|;
    z' := u[|gamma| + 1..];
    assert f[..|gamma|] == gamma && f[|gamma| + 1..] == z;
  }

  lemma RewriteInside(g: Grammar, gamma: seq<Symbol>, k: int, z: seq<Symbol>)
    requires 0 < k < |g.productions|
    ensures g.Step(gamma + [g.productions[k].name] + z, gamma + g.productions[k].prod + z)
  {
    var f := gamma + [g.productions[k].name] + z;
    assert f[..|gamma|] == gamma && f[|gamma| + 1..] == z && f[|gamma|] == g.productions[k].name;
    assert g.IsRule(g.productions[k]);
    assert g.StepAt(f, gamma + g.productions[k].prod + z, |gamma|, g.productions[k]);
  }

  lemma JustIntroduced(g: Grammar, todo0: seq<int>, front: seq<Symbol>, p: int, z: seq<Symbol>, d: int,
      alpha: seq<Symbol>, x: Symbol, y: seq<Symbol>)
    requires 0 < p < |g.productions| && Derived(g, todo0, front, g.productions[p].name, z)
    requires 0 <= d < |g.productions[p].prod| && x == g.productions[p].prod[d]
    requires alpha == front + g.productions[p].prod[..d] && y == g.productions[p].prod[d + 1..] + z
    ensures Introduced(g, alpha, x, y, todo0, front, p, d, z, g.productions[p].prod[d + 1..], 0)
  {
    hide Derived;
    NoStep(g, g.productions[p].prod[d + 1..], g.productions[p].prod[d + 1..]);
  }

  /** A step inside what the rest of the rule has become. */
  lemma StillIntroduced(g: Grammar, alpha: seq<Symbol>, x: Symbol, gamma: seq<Symbol>, p: int, z: seq<Symbol>,
                        todo0: seq<int>, alpha0: seq<Symbol>, k: int, d: int, v0: seq<Symbol>, u1: seq<Symbol>, n: nat)
    returns (u: seq<Symbol>)
    requires 0 < p < |g.productions| && g.productions[p].name in g.nonterminals
    requires Introduced(g, alpha, x, gamma + [g.productions[p].name] + z, todo0, alpha0, k, d, v0, u1, n)
    ensures Introduced(g, alpha, x, gamma + g.productions[p].prod + z, todo0, alpha0, k, d, v0, u, n + 1)
  {
    hide Grammar.DerivesIn;
    hide Grammar.Step;
    hide Rightmost;
    var rhs := g.productions[p].prod;
    var z' := InsideFirst(g, gamma, g.productions[p].name, z, u1, v0);
    RewriteInside(g, gamma, p, z');
    u := gamma + rhs + z';
    AppendStep(g, g.productions[k].prod[d + 1..], u1, u, n);
    assert gamma + rhs + z == u + v0;
  }

  /** Every nonterminal of a form in a rightmost derivation is the start symbol or was introduced by a rule. */
  lemma {:induction false} Origin(g: Grammar, A: Automaton, todo: seq<int>, alpha: seq<Symbol>, x: Symbol,
      y: seq<Symbol>)
    returns (atStart: bool, todo0: seq<int>, alpha0: seq<Symbol>, k: int, d: int, v0: seq<Symbol>, u: seq<Symbol>,
      n: nat)
    requires IsAutomaton(g, A) && Rightmost(g, g.productions[0].prod, todo, alpha + [x] + y) && x in g.nonterminals
    ensures atStart ==> alpha == [] && y == [] && g.productions[0].prod == [x]
    ensures !atStart ==> |todo0| < |todo| && Introduced(g, alpha, x, y, todo0, alpha0, k, d, v0, u, n)
    decreases |todo|
  {
    hide IsAutomaton;
    hide Rightmost;
    hide Grammar.DerivesIn;
    hide Grammar.Step;
    hide NoNonterminal;
    hide Introduced;
    StartHasOne(g, A);
    atStart, todo0, alpha0, k, d, v0, u, n := todo == [], [], [], 0, 0, [], [], 0;
    if atStart {
      StartForm(g, A, alpha, x, y);
    } else {
      var mid, i := RightmostPeel(g, g.productions[0].prod, todo, alpha + [x] + y);
      var p, front, z := todo[0], mid[..i], mid[i + 1..];
      var rhs := g.productions[p].prod;
      assert mid == front + [mid[i]] + z;
      WhereIs(g, alpha, x, y, front, rhs, z);
      RuleName(g, A, p);
      if |alpha| >= |front| {
        todo0, alpha0, k, d, v0, n := todo[1..], front, p, |alpha| - |front|, z, 0;
        u := rhs[d + 1..];
        JustIntroduced(g, todo0, front, p, z, d, alpha, x, y);
      } else {
        var gamma := front[|alpha| + 1..];
        var y1 := gamma + [mid[i]] + z;
        assert front == alpha + [x] + gamma;
        assert mid == alpha + [x] + y1;
        var u1;
        atStart, todo0, alpha0, k, d, v0, u1, n := Origin(g, A, todo[1..], alpha, x, y1);
        assert |y1| > 0;
        u := StillIntroduced(g, alpha, x, gamma, p, z, todo0, alpha0, k, d, v0, u1, n);
        n := n + 1;
        assert y == gamma + rhs + z;
      }
    }
  }

  // ----- Read

  /** The set that a transition leads to is closed. */
  lemma TargetClosed(g: Grammar, A: Automaton, x: Trans, it: Item, k: nat)
    requires IsAutomaton(g, A) && x in A.delta && 0 <= A.delta[x] < |A.C| && it in A.C[A.delta[x]]
    requires 0 < k < |g.productions| && Before(g, it, g.productions[k].name)
    ensures Item(k, 0) in A.C[A.delta[x]]
  {
    assert Edge(g, A, x);
    assert ClosedItems(g, A.C[A.delta[x]]);
    assert k in After(g, it);
  }

  lemma SymbolKnown(g: Grammar, A: Automaton, it: Item, x: Symbol)
    requires IsAutomaton(g, A) && Before(g, it, x)
    ensures x in g.terminals || x in g.nonterminals
    ensures x in g.terminals ==> x !in g.nonterminals
  {
    assert g.Knows(g.productions[it.number].prod);
    assert x in g.productions[it.number].prod;
  }

  /** An item behind a transition, with rest after its dot. */
  ghost predicate Behind(g: Grammar, A: Automaton, x: Trans, it: Item, rest: seq<Symbol>) {
    && IsTrans(g, A, x) && 0 <= A.delta[x] < |A.C| && it in A.C[A.delta[x]]
    && ItemOf(g, it) && rest == g.productions[it.number].prod[it.dot..]
  }

  /** The symbol c after the dot leads on, to the item moved past it. */
  lemma BehindNext(g: Grammar, A: Automaton, nullable: set<Symbol>, x: Trans, it: Item, rest: seq<Symbol>)
    requires IsAutomaton(g, A) && Behind(g, A, x, it, rest) && rest != []
    ensures IsTrans(g, A, x) && x in A.delta && var y := (A.delta[x], rest[0]);
      && (y.1 in g.terminals ==> y.1 !in g.nonterminals && DirectlyReads(g, A, x, y.1))
      && (y.1 !in g.terminals ==> y.1 in g.nonterminals && Behind(g, A, y, Item(it.number, it.dot + 1), rest[1..]))
      && (y.1 in nullable ==> Reads(A, nullable, x, y))
  {
    hide IsAutomaton;
    MovesOn(g, A, A.delta[x], it, rest[0]);
    SymbolKnown(g, A, it, rest[0]);
  }

  /** The rules of the nonterminal after the dot start there too. */
  lemma BehindRule(g: Grammar, A: Automaton, x: Trans, it: Item, rest: seq<Symbol>, k: int)
    requires IsAutomaton(g, A) && Behind(g, A, x, it, rest) && rest != []
    requires 0 < k < |g.productions| && g.productions[k].name == rest[0]
    ensures Behind(g, A, x, Item(k, 0), g.productions[k].prod)
  {
    hide IsAutomaton;
    TargetClosed(g, A, x, it, k);
  }

  /** What the first symbol becomes, and what the others do. */
  lemma SplitHead(g: Grammar, rest: seq<Symbol>, u: seq<Symbol>, n: nat)
    returns (u1: seq<Symbol>, u2: seq<Symbol>, n1: nat)
    requires rest != [] && g.DerivesIn(rest, u, n) && NoNonterminal(g, u) && u != []
    ensures n1 <= n && g.DerivesIn([rest[0]], u1, n1) && g.DerivesIn(rest[1..], u2, n - n1)
    ensures NoNonterminal(g, u1) && NoNonterminal(g, u2)
    ensures if u1 == [] then u2 == u else u1[0] == u[0]
  {
    hide Grammar.DerivesIn;
    hide NoNonterminal;
    assert rest == [rest[0]] + rest[1..];
    u1, u2, n1 := DerivesSplit(g, [rest[0]], rest[1..], u, n);
    PartsHaveNone(g, u1, u2);
  }

  /** Whatever the rest of the item can start with is in the Read set. */
  lemma {:induction false} ReadHas(g: Grammar, A: Automaton, s: Sets, m: map<(int, Item), seq<Symbol>>, x: Trans,
      it: Item,
                                   rest: seq<Symbol>, u: seq<Symbol>, n: nat)
    requires IsAutomaton(g, A) && Lalr(g, A, s, m) && Behind(g, A, x, it, rest)
    requires g.DerivesIn(rest, u, n) && NoNonterminal(g, u) && u != []
    ensures x in s.read && u[0] in s.read[x]
    decreases n, |rest|
  {
    hide IsAutomaton;
    hide Lalr;
    hide Grammar.DerivesIn;
    hide Grammar.WellFormed;
    hide NoNonterminal;
    hide DirectlyReads;
    hide Reads;
    hide IsTrans;
    hide Behind;
    AutomatonGrammar(g, A);
    if rest == [] {
      NothingFromNothing(g, u, n);
      assert false;
    }
    var c, rest' := rest[0], rest[1..];
    BehindNext(g, A, s.nullable, x, it, rest);
    var u1, u2, n1 := SplitHead(g, rest, u, n);
    if c in g.terminals {
      OneTerminal(g, c, u1, n1);
      ReadsDirect(g, A, s, m, x, c);
    } else if u1 != [] {
      var k := ByRule(g, c, u1, n1);
      BehindRule(g, A, x, it, rest, k);
      ReadHas(g, A, s, m, x, Item(k, 0), g.productions[k].prod, u1, n1 - 1);
    } else {
      DerivesEmpty(g, A, s, m, c, n1);
      ReadHas(g, A, s, m, (A.delta[x], c), Item(it.number, it.dot + 1), rest', u2, n - n1);
      ReadsVia(g, A, s, m, x, (A.delta[x], c), u[0]);
    }
  }

  lemma AutomatonGrammar(g: Grammar, A: Automaton)
    requires IsAutomaton(g, A)
    ensures g.WellFormed()
  {
  }

  lemma NothingFromNothing(g: Grammar, u: seq<Symbol>, n: nat)
    requires g.WellFormed() && g.DerivesIn([], u, n)
    ensures u == []
  {
    StaysPut(g, [], u, n);
  }

  lemma OneTerminal(g: Grammar, c: Symbol, u: seq<Symbol>, n: nat)
    requires g.WellFormed() && c !in g.nonterminals && g.DerivesIn([c], u, n)
    ensures u == [c]
  {
    StaysPut(g, [c], u, n);
  }

  lemma DerivesEmpty(g: Grammar, A: Automaton, s: Sets, m: map<(int, Item), seq<Symbol>>, c: Symbol, n: nat)
    requires Lalr(g, A, s, m) && g.DerivesIn([c], [], n)
    ensures c in s.nullable
  {
    assert g.Derives([c], []);
  }

  /** In a form that can vanish every symbol can. */
  lemma {:induction false} AllVanish(g: Grammar, A: Automaton, s: Sets, m: map<(int, Item), seq<Symbol>>,
      form: seq<Symbol>, n: nat)
    requires Lalr(g, A, s, m) && g.DerivesIn(form, [], n)
    ensures Vanishes(s.nullable, form)
    decreases |form|
  {
    hide Lalr;
    hide Grammar.DerivesIn;
    if form != [] {
      assert form == [form[0]] + form[1..];
      var a, b, k := DerivesSplit(g, [form[0]], form[1..], [], n);
      DerivesEmpty(g, A, s, m, form[0], k);
      AllVanish(g, A, s, m, form[1..], n - k);
    }
  }

  // ----- Follow

  /** Following symbols from inside a path leads along the path. */
  lemma {:induction false} AlongPath(A: Automaton, states: seq<int>, alpha: seq<Symbol>, w: seq<Symbol>)
    requires IsPath(A, states, Stack(alpha + w))
    ensures |alpha| < |states| && Along(A, states[|alpha|], w) == states[|states| - 1]
    decreases |w|
  {
    var syms := Stack(alpha + w);
    if w == [] {
      assert alpha + w == alpha;
    } else {
      var last := |w| - 1;
      var n := |states| - 1;
      assert syms[..n] == Stack(alpha + w[..last]) && syms[n] == w[last];
      PathPrefix(A, states, syms, n);
      AlongPath(A, states[..n], alpha, w[..last]);
    }
  }

  // ----- the pairs that belong to INCLUDES

  /** The pair comes from an item at the start of its production. The source makes others too. */
  ghost predicate Proper(g: Grammar, A: Automaton, nullable: set<Symbol>, x: Trans, y: Trans) {
    exists it, d :: ProperBy(g, A, nullable, x, y, it, d)
  }

  ghost predicate ProperBy(g: Grammar, A: Automaton, nullable: set<Symbol>, x: Trans, y: Trans, it: Item, d: int) {
    it.dot == 0 && IncludesBy(g, A, nullable, x, y, it, d)
  }

  ghost function ProperOnly(g: Grammar, A: Automaton, nullable: set<Symbol>, x: Trans,
      ys: seq<Trans>): (kept: seq<Trans>)
    ensures forall y :: y in kept <==> y in ys && Proper(g, A, nullable, x, y)
  {
    if ys == [] then []
    else (if Proper(g, A, nullable, x, ys[0]) then [ys[0]] else []) + ProperOnly(g, A, nullable, x, ys[1..])
  }

  /** The propagation along proper pairs alone. */
  ghost function ProperPart(g: Grammar, A: Automaton, s: Sets): SetProblem {
    Digraph.Problem(s.trans, x => ProperOnly(g, A, s.nullable, x, s.alongIncludes.rel(x)), s.alongIncludes.base)
  }

  /** The Follow set that proper pairs alone give. */
  ghost predicate ProperFollow(g: Grammar, A: Automaton, s: Sets, x: Trans, a: Symbol) {
    Digraph.InUnion(ProperPart(g, A, s), x, a)
  }

  lemma ProperBase(g: Grammar, A: Automaton, s: Sets, m: map<(int, Item), seq<Symbol>>, x: Trans, a: Symbol)
    requires Lalr(g, A, s, m) && IsTrans(g, A, x) && x in s.read && a in s.read[x]
    ensures ProperFollow(g, A, s, x, a)
  {
    hide Includes;
    hide Attached;
    hide LookDict;
    hide ReadProblem;
    Digraph.InUnionBase(ProperPart(g, A, s), x, a);
  }

  lemma ProperVia(g: Grammar, A: Automaton, s: Sets, m: map<(int, Item), seq<Symbol>>, x: Trans, y: Trans, it: Item,
      d: int, a: Symbol)
    requires Lalr(g, A, s, m) && IsTrans(g, A, x) && IsTrans(g, A, y) && ProperBy(g, A, s.nullable, x, y, it, d)
    requires ProperFollow(g, A, s, y, a)
    ensures ProperFollow(g, A, s, x, a)
  {
    hide IncludesBy;
    hide Attached;
    hide LookDict;
    hide ReadProblem;
    var P := ProperPart(g, A, s);
    assert Includes(g, A, s.nullable, x, y);
    assert y in P.rel(x);
    Digraph.ReachEdge(P, x, y);
    Digraph.InUnionVia(P, x, y, a);
  }

  lemma ProperEdge(g: Grammar, A: Automaton, s: Sets, m: map<(int, Item), seq<Symbol>>, x: Trans, y: Trans)
    requires Lalr(g, A, s, m) && IsTrans(g, A, x) && y in ProperPart(g, A, s).rel(x)
    ensures IsTrans(g, A, y) && Proper(g, A, s.nullable, x, y) && Includes(g, A, s.nullable, x, y)
  {
    hide IncludesBy;
    hide Attached;
    hide LookDict;
    hide ReadProblem;
    assert x in s.trans;
  }

  lemma FollowNode(g: Grammar, A: Automaton, s: Sets, m: map<(int, Item), seq<Symbol>>, x: Trans, a: Symbol)
    requires Lalr(g, A, s, m) && IsTrans(g, A, x) && a in s.alongIncludes.base(x)
    ensures x in s.read && a in s.read[x]
  {
    hide Includes;
    assert x in s.trans;
  }

  /** The computed Follow set has at least that. */
  lemma ProperWithin(g: Grammar, A: Automaton, s: Sets, m: map<(int, Item), seq<Symbol>>, x: Trans, a: Symbol)
    requires Lalr(g, A, s, m) && IsTrans(g, A, x) && ProperFollow(g, A, s, x, a)
    ensures x in s.follow && a in s.follow[x]
  {
    hide Lalr;
    hide ProperPart;
    var P := ProperPart(g, A, s);
    var z :| Digraph.Reach(P, x, z) && a in P.base(z);
    var walk :| Paths.Connects(P.SuccFn(), walk, x, z);
    ProperWalkWithin(g, A, s, m, walk, a);
  }

  lemma {:induction false} ProperWalkWithin(g: Grammar, A: Automaton, s: Sets, m: map<(int, Item), seq<Symbol>>,
      walk: seq<Trans>, a: Symbol)
    requires Lalr(g, A, s, m) && Paths.IsWalk(ProperPart(g, A, s).SuccFn(), walk) && IsTrans(g, A, walk[0])
    requires a in ProperPart(g, A, s).base(walk[|walk| - 1])
    ensures walk[0] in s.follow && a in s.follow[walk[0]]
    decreases |walk|
  {
    hide Lalr;
    hide Includes;
    hide Proper;
    FollowEquation(g, A, s, m, walk[0], a);
    if |walk| == 1 {
      FollowNode(g, A, s, m, walk[0], a);
    } else {
      assert walk[1] in ProperPart(g, A, s).SuccFn()(walk[0]);
      ProperEdge(g, A, s, m, walk[0], walk[1]);
      ProperWalkWithin(g, A, s, m, walk[1..], a);
    }
  }

  lemma TopOf(g: Grammar, A: Automaton, states: seq<int>, alpha: seq<Symbol>, x: Symbol)
    requires IsAutomaton(g, A) && Awaits(A, states, alpha, x)
    ensures states != [] && 0 <= states[|states| - 1] < |A.C| && (alpha == [] ==> states == [0])
  {
    hide IsAutomaton;
    PathStates(g, A, states, Stack(alpha), |states| - 1);
  }

  /** The end of the input follows the start symbol in the first state. */
  lemma FollowStart(g: Grammar, A: Automaton, s: Sets, m: map<(int, Item), seq<Symbol>>, x: Symbol)
    requires IsAutomaton(g, A) && Lalr(g, A, s, m) && IsTrans(g, A, (0, x)) && g.productions[0].prod == [x]
    ensures ProperFollow(g, A, s, (0, x), DollarEnd)
  {
    hide IsAutomaton;
    hide Lalr;
    StartHasOne(g, A);
    assert DirectlyReads(g, A, (0, x), DollarEnd);
    ReadsDirect(g, A, s, m, (0, x), DollarEnd);
    ProperBase(g, A, s, m, (0, x), DollarEnd);
  }

  /** What the rest of a rule starts with follows the nonterminal before it. */
  lemma FollowRest(g: Grammar, A: Automaton, s: Sets, m: map<(int, Item), seq<Symbol>>, st: int, k: int, d: int,
      u: seq<Symbol>, n: nat)
    requires IsAutomaton(g, A) && Lalr(g, A, s, m) && 0 <= st < |A.C|
    requires 0 < k < |g.productions| && 0 <= d < |g.productions[k].prod| && Item(k, d) in A.C[st]
    requires g.productions[k].prod[d] in g.nonterminals
    requires g.DerivesIn(g.productions[k].prod[d + 1..], u, n) && NoNonterminal(g, u) && u != []
    ensures ProperFollow(g, A, s, (st, g.productions[k].prod[d]), u[0])
  {
    hide IsAutomaton;
    hide Lalr;
    hide ProperFollow;
    hide Grammar.DerivesIn;
    hide NoNonterminal;
    var x := (st, g.productions[k].prod[d]);
    MovesOn(g, A, st, Item(k, d), x.1);
    ReadHas(g, A, s, m, x, Item(k, d + 1), g.productions[k].prod[d + 1..], u, n);
    ProperBase(g, A, s, m, x, u[0]);
  }

  /** If the rest of the rule vanishes, what follows the rule follows the nonterminal too. */
  lemma FollowRule(g: Grammar, A: Automaton, s: Sets, m: map<(int, Item), seq<Symbol>>, y: Trans, st: int, k: int,
      d: int, n: nat, a: Symbol)
    requires IsAutomaton(g, A) && Lalr(g, A, s, m) && 0 <= st < |A.C| && 0 <= y.0 < |A.C|
    requires 0 < k < |g.productions| && 0 <= d < |g.productions[k].prod| && Item(k, d) in A.C[st]
    requires g.productions[k].prod[d] in g.nonterminals
    requires Item(k, 0) in A.C[y.0] && y.1 == g.productions[k].name && st == Along(A, y.0, g.productions[k].prod[..d])
    requires g.DerivesIn(g.productions[k].prod[d + 1..], [], n)
    requires IsTrans(g, A, y) && ProperFollow(g, A, s, y, a)
    ensures ProperFollow(g, A, s, (st, g.productions[k].prod[d]), a)
  {
    hide IsAutomaton;
    hide Lalr;
    hide ProperFollow;
    hide Grammar.DerivesIn;
    hide Along;
    var rhs := g.productions[k].prod;
    var x := (st, rhs[d]);
    MovesOn(g, A, st, Item(k, d), x.1);
    AllVanish(g, A, s, m, rhs[d + 1..], n);
    assert rhs[0..d] == rhs[..d];
    hide Vanishes;
    assert ProperBy(g, A, s.nullable, x, y, Item(k, 0), d);
    ProperVia(g, A, s, m, x, y, Item(k, 0), d, a);
  }

  /** The path for alpha0 goes on through the rule to the path that awaits its d-th symbol. */
  lemma ThroughRule(g: Grammar, A: Automaton, todo0: seq<int>, alpha0: seq<Symbol>, k: int, d: int, v0: seq<Symbol>,
      states: seq<int>, x: Symbol)
    returns (before: seq<int>)
    requires IsAutomaton(g, A) && 0 < k < |g.productions| && 0 <= d <= |g.productions[k].prod|
    requires Derived(g, todo0, alpha0, g.productions[k].name, v0)
    requires IsPath(A, states, Stack(alpha0 + g.productions[k].prod[..d]))
    ensures before != [] && states != [] && Awaits(A, before, alpha0, g.productions[k].name)
    ensures 0 <= before[|before| - 1] < |A.C| && Item(k, 0) in A.C[before[|before| - 1]]
    ensures 0 <= states[|states| - 1] < |A.C| && Item(k, d) in A.C[states[|states| - 1]]
    ensures states[|states| - 1] == Along(A, before[|before| - 1], g.productions[k].prod[..d])
  {
    hide IsAutomaton;
    hide Derived;
    hide Along;
    var name, part := g.productions[k].name, g.productions[k].prod[..d];
    before := Viable(g, A, todo0, alpha0, name, v0);
    AwaitsRule(g, A, before, alpha0, k);
    var all := ReadOn(g, A, before, alpha0, k, d);
    PathUnique(A, all, states, Stack(alpha0 + part));
    AlongPath(A, states, alpha0, part);
    assert before[|alpha0|] == states[|alpha0|];
  }

  /** Whatever stands after the rightmost nonterminal in a rightmost derivation is in its Follow set. */
  lemma {:induction false} FollowHas(g: Grammar, A: Automaton, s: Sets, m: map<(int, Item), seq<Symbol>>,
                                     todo: seq<int>, alpha: seq<Symbol>, x: Symbol, v: seq<Symbol>, states: seq<int>)
    requires IsAutomaton(g, A) && Lalr(g, A, s, m) && Derived(g, todo, alpha, x, v) && Awaits(A, states, alpha, x)
    ensures ProperFollow(g, A, s, (states[|states| - 1], x), LookaheadOf(v))
    decreases |todo|
  {
    hide IsAutomaton;
    hide Lalr;
    hide ProperFollow;
    hide Rightmost;
    hide IsPath;
    hide Along;
    hide Grammar.DerivesIn;
    hide NoNonterminal;
    TopOf(g, A, states, alpha, x);
    var atStart, todo0, alpha0, k, d, v0, u, n := Origin(g, A, todo, alpha, x, v);
    if atStart {
      FollowStart(g, A, s, m, x);
    } else {
      var before := ThroughRule(g, A, todo0, alpha0, k, d, v0, states, x);
      var st := states[|states| - 1];
      PartsHaveNone(g, u, v0);
      if u != [] {
        FollowRest(g, A, s, m, st, k, d, u, n);
      } else {
        var y := (before[|before| - 1], g.productions[k].name);
        FollowHas(g, A, s, m, todo0, alpha0, y.1, v0, before);
        assert v == v0;
        FollowRule(g, A, s, m, y, st, k, d, n, LookaheadOf(v));
      }
    }
  }

  // ----- the lookaheads

  /** p.lookaheads[st] */
  function LookOf(m: map<(int, Item), seq<Symbol>>): LRTable.Lookaheads {
    (st, it) => if (st, it) in m then m[(st, it)] else []
  }

  lemma AttachedWhere(g: Grammar, A: Automaton, s: Sets, m: map<(int, Item), seq<Symbol>>, y: Trans, e: (int, Item))
    requires Lalr(g, A, s, m) && IsTrans(g, A, y) && Lookback(g, A, y, e)
    ensures e in m && y in s.follow && forall a :: a in s.follow[y] ==> a in m[e]
  {
    hide Lookback;
    hide ReadProblem;
    hide Includes;
    hide SingleReads;
    assert y in s.trans && e in s.lookdict[y];
    assert y in s.alongIncludes.nodes;
    assert Digraph.Within(s.follow[y], s.lists[y]);
  }

  /** The end of a rule looks back to where it started. */
  lemma LooksBack(g: Grammar, A: Automaton, y: Trans, st: int, k: int)
    requires IsAutomaton(g, A) && 0 < k < |g.productions| && 0 <= y.0 < |A.C| && 0 <= st < |A.C|
    requires Item(k, 0) in A.C[y.0] && y.1 == g.productions[k].name
    requires st == Along(A, y.0, g.productions[k].prod) && Item(k, |g.productions[k].prod|) in A.C[st]
    ensures Lookback(g, A, y, (st, Item(k, |g.productions[k].prod|)))
  {
    hide IsAutomaton;
    hide Along;
    var rhs := g.productions[k].prod;
    assert rhs[0..] == rhs;
    assert LookbackBy(g, A, y, (st, Item(k, |rhs|)), Item(k, 0));
  }

  /** The computed lookaheads have whatever can follow when it is time to reduce. */
  lemma LalrAdequate(g: Grammar, A: Automaton, s: Sets, m: map<(int, Item), seq<Symbol>>)
    requires IsAutomaton(g, A) && Lalr(g, A, s, m)
    ensures Adequate(g, A, LookOf(m))
  {
    hide IsAutomaton;
    hide Lalr;
    hide AdequateAt;
    forall todo, alpha, k, v, states | 0 < k < |g.productions|
      ensures AdequateAt(g, LookOf(m), todo, alpha, k, v, states, A) {
      LalrAdequateAt(g, A, s, m, todo, alpha, k, v, states);
    }
  }

  lemma LalrAdequateAt(g: Grammar, A: Automaton, s: Sets, m: map<(int, Item), seq<Symbol>>,
                       todo: seq<int>, alpha: seq<Symbol>, k: int, v: seq<Symbol>, states: seq<int>)
    requires IsAutomaton(g, A) && Lalr(g, A, s, m) && 0 < k < |g.productions|
    ensures AdequateAt(g, LookOf(m), todo, alpha, k, v, states, A)
  {
    hide IsAutomaton;
    hide Lalr;
    hide Derived;
    hide Along;
    hide IsPath;
    hide Tokens;
    hide ProperFollow;
    var name, rhs := g.productions[k].name, g.productions[k].prod;
    if Derived(g, todo, alpha, name, v) && IsPath(A, states, Stack(alpha + rhs)) {
      assert rhs[..|rhs|] == rhs;
      var before := ThroughRule(g, A, todo, alpha, k, |rhs|, v, states, name);
      var y, e := (before[|before| - 1], name), (states[|states| - 1], Item(k, |rhs|));
      FollowHas(g, A, s, m, todo, alpha, name, v, before);
      RuleName(g, A, k);
      LooksBack(g, A, y, e.0, k);
      ProperWithin(g, A, s, m, y, LookaheadOf(v));
      AttachedWhere(g, A, s, m, y, e);
    }
  }

  // ----- every state that the table construction visits has its lookaheads

  /** Every state of a collection ends a path. */
  lemma {:induction false} StateHasPath(coll: Collection, A: Automaton, k: int)
    returns (states: seq<int>, syms: seq<Symbol>)
    requires Numbers(coll, A) && 0 <= k < |A.C|
    ensures IsPath(A, states, syms) && states[|states| - 1] == k && syms[0] == DollarEnd
    decreases k
  {
    if k == 0 {
      states, syms := [0], [DollarEnd];
    } else {
      assert coll.Listed(A.C) && coll.Reached(A.C, k);
      var i, x :| coll.ReachedBy(A.C, k, i, x);
      var before, read := StateHasPath(coll, A, i);
      EdgeTo(coll, A, i, x, k);
      PathExtends(A, before, read, x, k);
      states, syms := before + [k], read + [x];
    }
  }

  lemma EdgeTo(coll: Collection, A: Automaton, i: int, x: Symbol, k: int)
    requires Numbers(coll, A) && 0 <= k < |A.C| && coll.ReachedBy(A.C, k, i, x)
    ensures (i, x) in A.delta && A.delta[(i, x)] == k
  {
    var key := (x, Kernel(coll.g, A.C[i], x));
    assert coll.Cached(A.C[i], x, A.C[k]);
    assert TrieEntry(coll.g, key.1, coll.trie[key]);
    assert coll.cidhash[A.C[k]] == k;
  }

  ghost predicate HasPath(A: Automaton, st: int) {
    exists states, alpha :: IsPath(A, states, Stack(alpha)) && states[|states| - 1] == st
  }

  ghost predicate AllReached(A: Automaton) {
    forall st :: 0 <= st < |A.C| ==> HasPath(A, st)
  }

  /** The states of a collection are all reached. */
  lemma CollectionReached(coll: Collection, A: Automaton)
    requires Numbers(coll, A)
    ensures AllReached(A)
  {
    hide Numbers;
    hide IsPath;
    forall st | 0 <= st < |A.C| ensures HasPath(A, st) {
      var states, syms := StateHasPath(coll, A, st);
      SymsOfPath(A, states, syms);
      assert syms == Stack(syms[1..]);
    }
  }

  lemma SymsOfPath(A: Automaton, states: seq<int>, syms: seq<Symbol>)
    requires IsPath(A, states, syms)
    ensures states != [] && syms != []
  {
  }

  /** The entry that is read for a complete item exists: the lookup cannot fail. */
  lemma LookupDefined(coll: Collection, A: Automaton, s: Sets, m: map<(int, Item), seq<Symbol>>, st: int, it: Item)
    requires Numbers(coll, A) && Lalr(coll.g, A, s, m)
    requires 0 <= st < |A.C| && it in A.C[st] && IsComplete(coll.g, it) && it.number > 0
    ensures (st, it) in m
  {
    hide Lalr;
    hide Along;
    hide Numbers;
    hide IsAutomaton;
    var g := coll.g;
    NumbersAutomaton(coll, A);
    var states, syms := StateHasPath(coll, A, st);
    hide IsPath;
    Handle(g, A, states, syms, it);
    var k := it.number;
    var rhs := g.productions[k].prod;
    var n := |states| - |rhs|;
    var y := (states[n - 1], g.productions[k].name);
    LeadsOnFrom(g, A, states, syms, n - 1, k);
    var alpha := syms[1..n];
    assert syms == Stack(alpha + rhs) by {
      assert syms == [syms[0]] + syms[1..n] + syms[n..];
    }
    AlongPath(A, states, alpha, rhs);
    RuleName(g, A, k);
    LooksBack(g, A, y, st, k);
    AttachedWhere(g, A, s, m, y, (st, it));
  }

  lemma LeadsOnFrom(g: Grammar, A: Automaton, states: seq<int>, syms: seq<Symbol>, i: int, k: int)
    requires IsAutomaton(g, A) && IsPath(A, states, syms) && 0 <= i < |states| && 0 <= states[i] < |A.C|
    requires 0 < k < |g.productions| && Item(k, 0) in A.C[states[i]]
    ensures (states[i], g.productions[k].name) in A.delta
  {
    hide IsAutomaton;
    PathStates(g, A, states, syms, i);
    if states[i] > 0 {
      var before, x := states[i - 1], syms[i];
      assert (before, x) in A.delta && A.delta[(before, x)] == states[i];
    }
    InitialLeadsOn(g, A, states[i], k);
  }

  // ----- from grammar to verdict

  datatype Generation = Generated | AcceptReduceConflict | TooManyTransitions

  /** Every complete item of a rule has an entry in m for its state. */
  ghost predicate EntriesExist(g: Grammar, A: Automaton, m: map<(int, Item), seq<Symbol>>) {
    forall st, it :: 0 <= st < |A.C| && it in A.C[st] && IsComplete(g, it) && it.number > 0 ==> (st, it) in m
  }

  lemma AcceptConflictIsOne(g: Grammar, A: Automaton, look: LRTable.Lookaheads, st: int)
    requires 0 <= st < |A.C| && AcceptConflict(g, look, st, A.C[st])
    ensures !NoConflict(g, A, look)
  {
    var I := A.C[st];
    var i0, it :| i0 in I && it in I && IsComplete(g, i0) && i0.number == 0
      && IsComplete(g, it) && it.number > 0 && DollarEnd in look(st, it);
    assert Proposed(g, A, look, st, i0, DollarEnd, 0);
    assert Proposed(g, A, look, st, it, DollarEnd, 0 - it.number);
  }

  /** LALR tables, unless a state has an accept/reduce conflict or there are too many transitions to number. */
  method Generate(g: Grammar)
    returns (outcome: Generation, t: Tables, m: map<(int, Item), seq<Symbol>>, ghost A: Automaton, ghost s: Sets)
    requires g.WellFormed()
    ensures outcome == Generated ==> TablesFor(g, A, LookOf(m), t) && Lalr(g, A, s, m) && EntriesExist(g, A, m)
    ensures outcome == Generated ==> AllReached(A)
    ensures outcome == Generated ==> Adequate(g, A, LookOf(m))
    ensures outcome == AcceptReduceConflict ==>
      IsAutomaton(g, A) && Adequate(g, A, LookOf(m)) && !NoConflict(g, A, LookOf(m))
  {
    hide Lalr;
    hide Numbers;
    hide TablesFor;
    hide IsAutomaton;
    hide Adequate;
    hide NoConflict;
    hide AllReached;
    var coll, C;
    coll, C, A := Collect(g);
    var ok;
    t := Tables([], []);
    ok, m, s := AddLalrLookaheads(coll, A, C);
    if !ok {
      return TooManyTransitions, t, m, A, s;
    }
    LalrAdequate(g, A, s, m);
    CollectionReached(coll, A);
    forall st, it | 0 <= st < |A.C| && it in A.C[st] && IsComplete(g, it) && it.number > 0 ensures (st, it) in m {
      LookupDefined(coll, A, s, m, st, it);
    }
    ok, t := FillTables(coll, C, A, LookOf(m));
    outcome := if ok then Generated else AcceptReduceConflict;
    if !ok {
      ghost var st :| 0 <= st < |A.C| && AcceptConflict(g, LookOf(m), st, A.C[st]);
      AcceptConflictIsOne(g, A, LookOf(m), st);
    }
  }

  /**
   * The whole way: what is accepted is derived by the grammar; and if the tables
   * have no conflict, every sentence is accepted, given enough rounds.
   */
  method GenerateAndParse(g: Grammar, input: seq<Symbol>, rounds: nat)
    returns (generation: Generation, outcome: Outcome, ghost A: Automaton, ghost look: LRTable.Lookaheads)
    requires g.WellFormed() && Tokens(g, input)
    ensures generation == Generated && outcome == Accepted ==> g.Derives(g.productions[0].prod, input)
    ensures NoConflict(g, A, look) ==> generation != AcceptReduceConflict
    ensures generation == Generated && NoConflict(g, A, look) ==>
      forall reductions ::
          Rightmost(g, g.productions[0].prod, reductions, input) && rounds > |reductions| + |input| ==>
            outcome == Accepted
  {
    hide TablesFor;
    hide Adequate;
    hide NoConflict;
    hide Rightmost;
    hide RunFor;
    hide Lalr;
    hide IsAutomaton;
    var t, m;
    ghost var s;
    generation, t, m, A, s := Generate(g);
    look := LookOf(m);
    outcome := Continue;
    if generation == Generated {
      ghost var reductions;
      outcome, reductions := Parse(g, t, input, A, look, rounds);
      if NoConflict(g, A, look) {
        AcceptsExactly(g, A, look, t, input);
      }
    }
  }
}
