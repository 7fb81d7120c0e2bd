/** When the computed lookaheads are exactly the LALR(1) lookaheads, and when they are not. */
module LALRExact {
  import opened Options
  import opened Grammar
  import opened LR0
  import opened LRTable
  import opened LRParser
  import opened LRComplete
  import opened Lookaheads
  import opened LALR
  import Digraph
  import Paths
  import Productive

  // ----- putting rightmost derivations together

  lemma FirstStepOf(g: Grammar, form: seq<Symbol>, r: seq<int>, w: seq<Symbol>) returns (next: seq<Symbol>)
    requires r != [] && Rightmost(g, form, r, w)
    ensures RightmostStep(g, form, next, r[|r| - 1]) && Rightmost(g, next, r[..|r| - 1], w)
  {
    next :| RightmostStep(g, form, next, r[|r| - 1]) && Rightmost(g, next, r[..|r| - 1], w);
  }

  lemma NoReductions(g: Grammar, form: seq<Symbol>, w: seq<Symbol>)
    ensures Rightmost(g, form, [], w) <==> form == w
  {
  }

  lemma {:induction false} RightmostJoin(g: Grammar, form: seq<Symbol>, r1: seq<int>, mid: seq<Symbol>, r2: seq<int>,
      w: seq<Symbol>)
    requires Rightmost(g, form, r1, mid) && Rightmost(g, mid, r2, w)
    ensures Rightmost(g, form, r2 + r1, w)
    decreases |r1|
  {
    hide Rightmost;
    hide RightmostStep;
    if r1 == [] {
      NoReductions(g, form, mid);
      assert r2 + r1 == r2;
    } else {
      var last := |r1| - 1;
      var next := FirstStepOf(g, form, r1, mid);
      RightmostJoin(g, next, r1[..last], mid, r2, w);
      RightmostAppends(g, form, next, r1[last], r2 + r1[..last], w);
      assert r2 + r1[..last] + [r1[last]] == r2 + r1;
    }
  }

  lemma RightmostStepInContext(g: Grammar, u: seq<Symbol>, a: seq<Symbol>, b: seq<Symbol>, v: seq<Symbol>, p: int)
    requires RightmostStep(g, a, b, p) && NoNonterminal(g, v)
    ensures RightmostStep(g, u + a + v, u + b + v, p)
  {
    var i :| RightmostAt(g, a, b, p, i);
    var x, y := u + a + v, u + b + v;
    assert x[|u| + i] == a[i];
    assert x[..|u| + i] == u + a[..i];
    assert x[|u| + i + 1..] == a[i + 1..] + v;
    PartsHaveNone(g, a[i + 1..], v);
    assert y == (u + a[..i]) + g.productions[p].prod + (a[i + 1..] + v);
    assert RightmostAt(g, x, y, p, |u| + i);
  }

  lemma {:induction false} RightmostInContext(g: Grammar, u: seq<Symbol>, a: seq<Symbol>, r: seq<int>, b: seq<Symbol>,
      v: seq<Symbol>)
    requires Rightmost(g, a, r, b) && NoNonterminal(g, v)
    ensures Rightmost(g, u + a + v, r, u + b + v)
    decreases |r|
  {
    hide Rightmost;
    hide RightmostStep;
    hide NoNonterminal;
    if r == [] {
      NoReductions(g, a, b);
      NoReductions(g, u + a + v, u + b + v);
    } else {
      var last := |r| - 1;
      var next := FirstStepOf(g, a, r, b);
      RightmostInContext(g, u, next, r[..last], b, v);
      RightmostStepInContext(g, u, a, next, v, r[last]);
      RightmostAppends(g, u + a + v, u + next + v, r[last], r[..last], u + b + v);
      assert r[..last] + [r[last]] == r;
    }
  }

  /** A form within a rightmost derivation, as far as it has been derived. */
  ghost predicate Reached(g: Grammar, todo: seq<int>, form: seq<Symbol>) {
    |g.productions| > 0 && Rightmost(g, g.productions[0].prod, todo, form)
  }

  /** The part before v, which is last, can be derived on. */
  lemma DeriveOn(g: Grammar, todo: seq<int>, u: seq<Symbol>, a: seq<Symbol>, v: seq<Symbol>, w: seq<Symbol>, n: nat)
    returns (todo': seq<int>)
    requires g.WellFormed() && Reached(g, todo, u + a + v) && NoNonterminal(g, v) && NoNonterminal(g, w)
      && g.DerivesIn(a, w, n)
    ensures Reached(g, todo', u + w + v)
  {
    hide Rightmost;
    hide Grammar.DerivesIn;
    hide NoNonterminal;
    hide Grammar.WellFormed;
    var r := RightmostExists(g, a, w, n);
    RightmostInContext(g, u, a, r, w, v);
    RightmostJoin(g, g.productions[0].prod, todo, u + a + v, r, u + w + v);
    todo' := r + todo;
  }

  /** The rightmost nonterminal can be rewritten by its rule. */
  lemma Apply(g: Grammar, todo: seq<int>, alpha: seq<Symbol>, k: int, v: seq<Symbol>) returns (todo': seq<int>)
    requires 0 < k < |g.productions| && Derived(g, todo, alpha, g.productions[k].name, v)
    ensures Reached(g, todo', alpha + g.productions[k].prod + v)
  {
    hide Rightmost;
    var a, b := alpha + [g.productions[k].name] + v, alpha + g.productions[k].prod + v;
    assert a[..|alpha|] == alpha && a[|alpha| + 1..] == v && a[|alpha|] == g.productions[k].name;
    assert RightmostAt(g, a, b, k, |alpha|);
    Single(g, a, b, k);
    RightmostJoin(g, g.productions[0].prod, todo, a, [k], b);
    todo' := [k] + todo;
  }

  lemma Single(g: Grammar, a: seq<Symbol>, b: seq<Symbol>, k: int)
    requires RightmostStep(g, a, b, k)
    ensures Rightmost(g, a, [k], b)
  {
    assert Rightmost(g, b, [], b);
    RightmostAppends(g, a, b, k, [], b);
    assert [] + [k] == [k];
  }

  /** A nonterminal of a rule becomes the rightmost when the rest of the rule has become w. */
  lemma DeriveRest(g: Grammar, todo: seq<int>, alpha: seq<Symbol>, k: int, d: int, v: seq<Symbol>, w: seq<Symbol>,
      n: nat) returns (todo': seq<int>)
    requires g.WellFormed() && 0 < k < |g.productions| && Derived(g, todo, alpha, g.productions[k].name, v)
    requires 0 <= d < |g.productions[k].prod| && g.productions[k].prod[d] in g.nonterminals
    requires NoNonterminal(g, w) && g.DerivesIn(g.productions[k].prod[d + 1..], w, n)
    ensures Derived(g, todo', alpha + g.productions[k].prod[..d], g.productions[k].prod[d], w + v)
  {
    hide Rightmost;
    hide Grammar.DerivesIn;
    hide NoNonterminal;
    hide Grammar.WellFormed;
    var rhs := g.productions[k].prod;
    var before := Apply(g, todo, alpha, k, v);
    var u := alpha + rhs[..d] + [rhs[d]];
    assert rhs == rhs[..d] + [rhs[d]] + rhs[d + 1..];
    assert alpha + rhs + v == u + rhs[d + 1..] + v;
    todo' := DeriveOn(g, before, u, rhs[d + 1..], v, w, n);
    assert u + w + v == alpha + rhs[..d] + [rhs[d]] + (w + v);
    PartsHaveNone(g, w, v);
  }

  // ----- the items of a state are valid for every path to it

  /** Every nonterminal derives a string of terminals. */
  ghost predicate AllProductive(g: Grammar) {
    forall n :: n in g.nonterminals ==> Productive.Generates(g, g.terminals, [n])
  }

  lemma FormIsProductive(g: Grammar, form: seq<Symbol>) returns (w: seq<Symbol>, n: nat)
    requires g.WellFormed() && AllProductive(g) && g.Knows(form)
    ensures Tokens(g, w) && NoNonterminal(g, w) && g.DerivesIn(form, w, n)
  {
    var all := g.terminals + set x | x in g.nonterminals;
    forall x | x in g.terminals ensures Productive.Generates(g, g.terminals, [x]) {
      g.DerivesSelf([x]);
      assert Productive.Over(g.terminals, [x]);
    }
    Productive.FormsGenerate(g, g.terminals, all, form);
    w :| Productive.Over(g.terminals, w) && g.Derives(form, w);
    n :| g.DerivesIn(form, w, n);
  }

  /** The rest of a right-hand side derives some string of terminals. */
  lemma RestIsProductive(g: Grammar, k: int, d: int) returns (w: seq<Symbol>, n: nat)
    requires g.WellFormed() && AllProductive(g) && 0 <= k < |g.productions| && 0 <= d <= |g.productions[k].prod|
    ensures Tokens(g, w) && NoNonterminal(g, w) && g.DerivesIn(g.productions[k].prod[d..], w, n)
    ensures d < |g.productions[k].prod| && g.productions[k].prod[d] in g.terminals ==>
      w != [] && w[0] == g.productions[k].prod[d]
  {
    hide Grammar.DerivesIn;
    hide NoNonterminal;
    hide AllProductive;
    var rhs := g.productions[k].prod;
    KnowsPart(g, k, d);
    w, n := FormIsProductive(g, rhs[d..]);
    if d < |rhs| && rhs[d] in g.terminals {
      assert rhs[d..] == [rhs[d]] + rhs[d + 1..];
      var a, b, m := DerivesSplit(g, [rhs[d]], rhs[d + 1..], w, n);
      OneTerminal(g, rhs[d], a, m);
    }
  }

  lemma KnowsPart(g: Grammar, k: int, d: int)
    requires g.WellFormed() && 0 <= k < |g.productions| && 0 <= d <= |g.productions[k].prod|
    ensures g.Knows(g.productions[k].prod[d..])
  {
    assert g.Knows(g.productions[k].prod);
    assert forall s :: s in g.productions[k].prod[d..] ==> s in g.productions[k].prod;
  }

  /**
   * What is on the path is what rule k has up to d, after alpha0; and rule k is applied after alpha0
   * in some derivation.
   */
  ghost predicate ValidFor(g: Grammar, todo: seq<int>, alpha0: seq<Symbol>, v: seq<Symbol>, alpha: seq<Symbol>,
      it: Item) {
    && ItemOf(g, it) && it.number > 0
    && Derived(g, todo, alpha0, g.productions[it.number].name, v) && Tokens(g, v)
    && alpha == alpha0 + g.productions[it.number].prod[..it.dot]
  }

  /** From an item with x after the dot, x becomes the rightmost nonterminal after alpha. */
  lemma Exposes(g: Grammar, todo: seq<int>, alpha0: seq<Symbol>, v: seq<Symbol>, alpha: seq<Symbol>, it: Item,
      x: Symbol)
    returns (todo': seq<int>, v': seq<Symbol>)
    requires g.WellFormed() && AllProductive(g) && ValidFor(g, todo, alpha0, v, alpha, it) && Before(g, it, x)
      && x in g.nonterminals
    ensures Derived(g, todo', alpha, x, v') && Tokens(g, v')
  {
    hide Rightmost;
    hide Grammar.DerivesIn;
    hide NoNonterminal;
    hide AllProductive;
    hide Grammar.WellFormed;
    var w, n := RestIsProductive(g, it.number, it.dot + 1);
    todo' := DeriveRest(g, todo, alpha0, it.number, it.dot, v, w, n);
    v' := w + v;
  }

  lemma ClosureReason(g: Grammar, A: Automaton, states: seq<int>, syms: seq<Symbol>, idx: int) returns (i: int)
    requires IsAutomaton(g, A) && IsPath(A, states, syms) && 0 <= states[|states| - 1] < |A.C|
    requires var J := A.C[states[|states| - 1]]; 0 <= idx < |J| && J[idx].dot == 0 && J[idx].number > 0
    ensures var J := A.C[states[|states| - 1]];
      0 <= i < idx && 0 < J[idx].number < |g.productions| && Before(g, J[i], g.productions[J[idx].number].name)
  {
    var top := |states| - 1;
    var J := A.C[states[top]];
    if top > 0 {
      assert Edge(g, A, (states[top - 1], syms[top]));
      var K := Kernel(g, A.C[states[top - 1]], syms[top]);
      assert IsClosure(g, K, J);
      if idx < |K| {
        assert K[idx] == J[idx];
        KernelItems(g, A.C[states[top - 1]], syms[top], J[idx]);
        assert false;
      }
    }
    assert Justified(g, J, idx);
    i :| 0 <= i < idx && J[idx].number in After(g, J[i]);
  }

  lemma FirstOnlyAtStart(g: Grammar, A: Automaton, states: seq<int>, alpha: seq<Symbol>, it: Item)
    requires IsAutomaton(g, A) && IsPath(A, states, Stack(alpha)) && TopHas(g, A, states, it) && it == Item(0, 0)
    ensures alpha == []
  {
    hide IsAutomaton;
    var n := |states| - 1;
    if n > 0 {
      EdgeFact(g, A, states[n - 1], Stack(alpha)[n]);
      ItemOrigin(g, A, states[n - 1], Stack(alpha)[n], it);
    }
  }

  /** Every item of a state is valid for every path that leads there. */
  lemma {:induction false} ItemsAreValid(g: Grammar, A: Automaton, states: seq<int>, alpha: seq<Symbol>, idx: int)
    returns (todo: seq<int>, alpha0: seq<Symbol>, v: seq<Symbol>)
    requires IsAutomaton(g, A) && AllProductive(g) && IsPath(A, states, Stack(alpha))
      && 0 <= states[|states| - 1] < |A.C|
    requires var J := A.C[states[|states| - 1]]; 0 <= idx < |J| && J[idx].number > 0
    ensures ValidFor(g, todo, alpha0, v, alpha, A.C[states[|states| - 1]][idx])
    decreases |states|, idx
  {
    hide IsAutomaton;
    hide AllProductive;
    hide ValidFor;
    var top := |states| - 1;
    var J := A.C[states[top]];
    var it := J[idx];
    if it.dot > 0 {
      HandleStep(g, A, states, Stack(alpha), it);
      var prev := Item(it.number, it.dot - 1);
      var i :| 0 <= i < |A.C[states[top - 1]]| && A.C[states[top - 1]][i] == prev;
      assert Stack(alpha)[..top] == Stack(alpha[..top - 1]) && Stack(alpha)[top] == alpha[top - 1];
      todo, alpha0, v := ItemsAreValid(g, A, states[..top], alpha[..top - 1], i);
      ValidMoves(g, todo, alpha0, v, alpha[..top - 1], prev, alpha[top - 1]);
      assert alpha[..top - 1] + [alpha[top - 1]] == alpha;
    } else {
      var i := ClosureReason(g, A, states, Stack(alpha), idx);
      var x := g.productions[it.number].name;
      RuleName(g, A, it.number);
      AutomatonGrammar(g, A);
      if J[i].number > 0 {
        var t0, a0, v0 := ItemsAreValid(g, A, states, alpha, i);
        todo, v := Exposes(g, t0, a0, v0, alpha, J[i], x);
      } else {
        StartExposes(g, A, states, alpha, J[i], x);
        todo, v := [], [];
      }
      alpha0 := alpha;
      ValidInitial(g, todo, alpha, v, it);
    }
  }

  lemma ValidMoves(g: Grammar, todo: seq<int>, alpha0: seq<Symbol>, v: seq<Symbol>, alpha: seq<Symbol>, it: Item,
      x: Symbol)
    requires ValidFor(g, todo, alpha0, v, alpha, it) && Before(g, it, x)
    ensures ValidFor(g, todo, alpha0, v, alpha + [x], Item(it.number, it.dot + 1))
  {
    hide Derived;
    var rhs := g.productions[it.number].prod;
    assert rhs[..it.dot + 1] == rhs[..it.dot] + [x];
  }

  lemma ValidInitial(g: Grammar, todo: seq<int>, alpha: seq<Symbol>, v: seq<Symbol>, it: Item)
    requires ItemOf(g, it) && it.number > 0 && it.dot == 0 && Derived(g, todo, alpha, g.productions[it.number].name, v)
      && Tokens(g, v)
    ensures ValidFor(g, todo, alpha, v, alpha, it)
  {
    hide Derived;
    assert g.productions[it.number].prod[..0] == [];
  }

  lemma StartDerived(g: Grammar, x: Symbol)
    requires |g.productions| > 0 && g.productions[0].prod == [x] && x in g.nonterminals
    ensures Derived(g, [], [], x, [])
  {
    assert [] + [x] + [] == [x];
  }

  lemma StartExposes(g: Grammar, A: Automaton, states: seq<int>, alpha: seq<Symbol>, it: Item, x: Symbol)
    requires IsAutomaton(g, A) && IsPath(A, states, Stack(alpha)) && TopHas(g, A, states, it) && it.number == 0
    requires Before(g, it, x) && x in g.nonterminals
    ensures Derived(g, [], alpha, x, []) && Tokens(g, [])
  {
    StartHasOne(g, A);
    assert it == Item(0, 0);
    FirstOnlyAtStart(g, A, states, alpha, it);
    StartDerived(g, x);
  }

  // ----- Read

  /** In some derivation x is the rightmost nonterminal, after alpha, and a is next. */
  ghost predicate CanFollow(g: Grammar, todo: seq<int>, alpha: seq<Symbol>, x: Symbol, v: seq<Symbol>, a: Symbol) {
    Derived(g, todo, alpha, x, v) && Tokens(g, v) && LookaheadOf(v) == a
  }

  /** The item found behind x waits for the terminal a. */
  lemma TerminalNext(g: Grammar, A: Automaton, states: seq<int>, alpha: seq<Symbol>, x: Symbol, a: Symbol)
    returns (todo: seq<int>, v: seq<Symbol>)
    requires IsAutomaton(g, A) && AllProductive(g) && IsPath(A, states, Stack(alpha)) && a in g.terminals
      && x in g.nonterminals
    requires (states[|states| - 1], x) in A.delta && (A.delta[(states[|states| - 1], x)], a) in A.delta
    ensures CanFollow(g, todo, alpha, x, v, a)
  {
    hide IsAutomaton;
    hide AllProductive;
    hide ValidFor;
    AutomatonGrammar(g, A);
    var st := states[|states| - 1];
    var j := A.delta[(st, x)];
    EdgeFact(g, A, st, x);
    var it := WaitsFor(g, A, j, a);
    var i :| 0 <= i < |A.C[j]| && A.C[j][i] == it;
    PathExtends(A, states, Stack(alpha), x, j);
    assert Stack(alpha) + [x] == Stack(alpha + [x]);
    ItemOrigin(g, A, st, x, it);
    if it.number == 0 {
      StartHasOne(g, A);
      assert false;
    }
    var t0, a0, v0 := ItemsAreValid(g, A, states + [j], alpha + [x], i);
    todo, v := NextAfter(g, t0, a0, v0, alpha, x, it, a);
  }

  lemma NextAfter(g: Grammar, t0: seq<int>, a0: seq<Symbol>, v0: seq<Symbol>, alpha: seq<Symbol>, x: Symbol, it: Item,
      a: Symbol)
    returns (todo: seq<int>, v: seq<Symbol>)
    requires g.WellFormed() && AllProductive(g) && ValidFor(g, t0, a0, v0, alpha + [x], it) && Before(g, it, a)
      && a in g.terminals
    requires it.dot > 0 ==> Before(g, Item(it.number, it.dot - 1), x)
    requires x in g.nonterminals
    ensures CanFollow(g, todo, alpha, x, v, a)
  {
    hide Rightmost;
    hide Grammar.DerivesIn;
    hide NoNonterminal;
    hide AllProductive;
    hide Grammar.WellFormed;
    var rhs := g.productions[it.number].prod;
    var w, n := RestIsProductive(g, it.number, it.dot);
    if it.dot > 0 {
      var d := it.dot - 1;
      assert rhs[..it.dot] == rhs[..d] + [x];
      assert alpha == a0 + rhs[..d] by {
        assert (alpha + [x])[..|alpha|] == (a0 + rhs[..d] + [x])[..|alpha|];
      }
      todo := DeriveRest(g, t0, a0, it.number, d, v0, w, n);
    } else {
      var before := Apply(g, t0, a0, it.number, v0);
      assert rhs[0..] == rhs && a0 == alpha + [x];
      todo := DeriveOn(g, before, a0, rhs, v0, w, n);
      assert a0 + w + v0 == alpha + [x] + (w + v0);
      PartsHaveNone(g, w, v0);
    }
    v := w + v0;
  }

  /** Only the empty path leads to the first state. */
  lemma ToFirstState(g: Grammar, A: Automaton, states: seq<int>, alpha: seq<Symbol>)
    requires IsAutomaton(g, A) && IsPath(A, states, Stack(alpha)) && states[|states| - 1] == 0
    ensures alpha == []
  {
    hide IsAutomaton;
    PathStates(g, A, states, Stack(alpha), |states| - 1);
  }

  lemma DirectlyReadsSound(g: Grammar, A: Automaton, states: seq<int>, alpha: seq<Symbol>, x: Symbol, a: Symbol)
    returns (todo: seq<int>, v: seq<Symbol>)
    requires IsAutomaton(g, A) && AllProductive(g) && IsPath(A, states, Stack(alpha)) && x in g.nonterminals
    requires DirectlyReads(g, A, (states[|states| - 1], x), a)
    ensures CanFollow(g, todo, alpha, x, v, a)
  {
    hide IsAutomaton;
    hide AllProductive;
    hide Derived;
    if a in g.terminals {
      StartHasOne(g, A);
      todo, v := TerminalNext(g, A, states, alpha, x, a);
    } else {
      ToFirstState(g, A, states, alpha);
      StartDerived(g, x);
      todo, v := [], [];
    }
  }

  /** A vanishing nonterminal between alpha + [x] and v vanishes. */
  lemma SkipNullable(g: Grammar, todo: seq<int>, alpha: seq<Symbol>, x: Symbol, c: Symbol, v: seq<Symbol>)
    returns (todo': seq<int>)
    requires g.WellFormed() && Derived(g, todo, alpha + [x], c, v) && g.Derives([c], []) && x in g.nonterminals
    ensures Derived(g, todo', alpha, x, v)
  {
    hide Rightmost;
    hide Grammar.DerivesIn;
    hide Grammar.WellFormed;
    var n: nat :| g.DerivesIn([c], [], n);
    todo' := DeriveOn(g, todo, alpha + [x], [c], v, [], n);
    assert alpha + [x] + [] + v == alpha + [x] + v;
  }

  lemma ReadStep(g: Grammar, A: Automaton, s: Sets, m: map<(int, Item), seq<Symbol>>, x: Trans, y: Trans)
    requires Lalr(g, A, s, m) && x in s.alongReads.nodes && y in s.alongReads.rel(x)
    ensures Reads(A, s.nullable, x, y) && g.Derives([y.1], []) && IsTrans(g, A, y) && y in s.alongReads.nodes
  {
  }

  lemma ReadNode(g: Grammar, A: Automaton, s: Sets, m: map<(int, Item), seq<Symbol>>, x: Trans, a: Symbol)
    requires Lalr(g, A, s, m) && x in s.alongReads.nodes && a in s.alongReads.base(x)
    ensures IsTrans(g, A, x) && DirectlyReads(g, A, x, a)
  {
    hide DirectlyReads;
    hide Reads;
  }

  /** Along READS: for every path to the first transition of the walk. */
  lemma {:induction false} ReadWalk(g: Grammar, A: Automaton, s: Sets, m: map<(int, Item), seq<Symbol>>,
      walk: seq<Trans>,
                                    states: seq<int>, alpha: seq<Symbol>, a: Symbol)
    returns (todo: seq<int>, v: seq<Symbol>)
    requires IsAutomaton(g, A) && AllProductive(g) && Lalr(g, A, s, m)
    requires Paths.IsWalk(s.alongReads.SuccFn(), walk) && walk[0] in s.alongReads.nodes
      && a in s.alongReads.base(walk[|walk| - 1])
    requires IsPath(A, states, Stack(alpha)) && states[|states| - 1] == walk[0].0 && IsTrans(g, A, walk[0])
    ensures CanFollow(g, todo, alpha, walk[0].1, v, a)
    decreases |walk|
  {
    hide IsAutomaton;
    hide AllProductive;
    hide Lalr;
    hide DirectlyReads;
    hide Derived;
    hide Grammar.Derives;
    hide Grammar.WellFormed;
    var x := walk[0];
    if |walk| == 1 {
      ReadNode(g, A, s, m, x, a);
      todo, v := DirectlyReadsSound(g, A, states, alpha, x.1, a);
    } else {
      var y := walk[1];
      assert y in s.alongReads.SuccFn()(x);
      ReadStep(g, A, s, m, x, y);
      PathExtends(A, states, Stack(alpha), x.1, y.0);
      assert Stack(alpha) + [x.1] == Stack(alpha + [x.1]);
      todo, v := ReadWalk(g, A, s, m, walk[1..], states + [y.0], alpha + [x.1], a);
      AutomatonGrammar(g, A);
      todo := SkipNullable(g, todo, alpha, x.1, y.1, v);
    }
  }

  lemma ReadSound(g: Grammar, A: Automaton, s: Sets, m: map<(int, Item), seq<Symbol>>, x: Trans, states: seq<int>,
      alpha: seq<Symbol>, a: Symbol)
    returns (todo: seq<int>, v: seq<Symbol>)
    requires IsAutomaton(g, A) && AllProductive(g) && Lalr(g, A, s, m) && IsTrans(g, A, x) && x in s.read
      && a in s.read[x]
    requires IsPath(A, states, Stack(alpha)) && states[|states| - 1] == x.0
    ensures CanFollow(g, todo, alpha, x.1, v, a)
  {
    hide IsAutomaton;
    hide AllProductive;
    hide IsPath;
    var walk := WalkOfRead(g, A, s, m, x, a);
    hide Lalr;
    todo, v := ReadWalk(g, A, s, m, walk, states, alpha, a);
  }

  lemma WalkOfRead(g: Grammar, A: Automaton, s: Sets, m: map<(int, Item), seq<Symbol>>, x: Trans, a: Symbol)
    returns (walk: seq<Trans>)
    requires Lalr(g, A, s, m) && x in s.read && a in s.read[x]
    ensures Paths.IsWalk(s.alongReads.SuccFn(), walk) && walk[0] == x && x in s.alongReads.nodes
      && a in s.alongReads.base(walk[|walk| - 1])
  {
    hide ReadProblem;
    hide FollowProblem;
    hide Attached;
    hide LookDict;
    assert Digraph.Exact(s.alongReads, x, s.read[x]);
    var z :| Digraph.Reach(s.alongReads, x, z) && a in s.alongReads.base(z);
    walk :| Paths.Connects(s.alongReads.SuccFn(), walk, x, z);
  }

  // ----- Follow

  /** A path goes on along a word that leads somewhere. */
  lemma {:induction false} GoesAlong(g: Grammar, A: Automaton, states: seq<int>, alpha: seq<Symbol>, w: seq<Symbol>)
    returns (states': seq<int>)
    requires IsAutomaton(g, A) && IsPath(A, states, Stack(alpha)) && Along(A, states[|states| - 1], w) >= 0
    ensures IsPath(A, states', Stack(alpha + w)) && states'[|states'| - 1] == Along(A, states[|states| - 1], w)
    decreases |w|
  {
    hide IsAutomaton;
    if w == [] {
      assert alpha + w == alpha;
      states' := states;
    } else {
      var last := |w| - 1;
      var j := Along(A, states[|states| - 1], w[..last]);
      assert (j, w[last]) in A.delta;
      EdgeFact(g, A, j, w[last]);
      var before := GoesAlong(g, A, states, alpha, w[..last]);
      states' := before + [A.delta[(j, w[last])]];
      PathExtends(A, before, Stack(alpha + w[..last]), w[last], A.delta[(j, w[last])]);
      assert Stack(alpha + w[..last]) + [w[last]] == Stack(alpha + w);
    }
  }

  /** The terminal a can follow x after some path to st. */
  ghost predicate FollowsAt(g: Grammar, A: Automaton, states: seq<int>, alpha: seq<Symbol>, st: int, x: Symbol,
      todo: seq<int>, v: seq<Symbol>, a: Symbol) {
    IsPath(A, states, Stack(alpha)) && states[|states| - 1] == st && CanFollow(g, todo, alpha, x, v, a)
  }

  lemma {:induction false} EmptyFrom(g: Grammar, A: Automaton, s: Sets, m: map<(int, Item), seq<Symbol>>,
      form: seq<Symbol>) returns (n: nat)
    requires Lalr(g, A, s, m) && Vanishes(s.nullable, form)
    ensures g.DerivesIn(form, [], n)
    decreases |form|
  {
    if form == [] {
      n := 0;
    } else {
      assert form == [form[0]] + form[1..];
      assert g.Derives([form[0]], []);
      var k: nat :| g.DerivesIn([form[0]], [], k);
      hide Grammar.DerivesIn;
      var l := EmptyFrom(g, A, s, m, form[1..]);
      Reassemble(g, [form[0]], [], form[1..], [], [], k, l);
      var nothing: seq<Symbol> := [];
      assert [form[0]] + form[1..] + nothing == form && nothing + (nothing + nothing) == nothing;
      n := k + l;
    }
  }

  /** What follows a rule follows its nonterminal at d, if the rest vanishes. */
  lemma ProperStep(g: Grammar, A: Automaton, s: Sets, m: map<(int, Item), seq<Symbol>>, x: Trans, y: Trans, it: Item,
      d: int,
                   states: seq<int>, alpha: seq<Symbol>, todo: seq<int>, v: seq<Symbol>, a: Symbol)
    returns (states': seq<int>, alpha': seq<Symbol>, todo': seq<int>)
    requires IsAutomaton(g, A) && Lalr(g, A, s, m) && IncludesBy(g, A, s.nullable, x, y, it, d) && it.dot == 0
      && it.number > 0
    requires FollowsAt(g, A, states, alpha, y.0, y.1, todo, v, a)
    ensures FollowsAt(g, A, states', alpha', x.0, x.1, todo', v, a)
  {
    hide IsAutomaton;
    hide Lalr;
    hide Rightmost;
    hide Along;
    hide Grammar.DerivesIn;
    hide Grammar.WellFormed;
    hide NoNonterminal;
    hide Vanishes;
    AutomatonGrammar(g, A);
    var rhs := g.productions[it.number].prod;
    assert rhs[0..d] == rhs[..d];
    EdgeFact(g, A, x.0, x.1);
    var n := EmptyFrom(g, A, s, m, rhs[d + 1..]);
    states' := GoesAlong(g, A, states, alpha, rhs[..d]);
    alpha' := alpha + rhs[..d];
    PartsHaveNone(g, [], v);
    assert [] + v == v;
    todo' := DeriveRest(g, todo, alpha, it.number, d, v, [], n);
  }

  lemma RuleNumber(g: Grammar, A: Automaton, y: Trans, it: Item)
    requires IsAutomaton(g, A) && ItemFor(g, A, y, it) && y.1 in g.nonterminals
    ensures it.number > 0
  {
  }

  /** Along proper pairs. */
  lemma {:induction false} ProperWalk(g: Grammar, A: Automaton, s: Sets, m: map<(int, Item), seq<Symbol>>,
      walk: seq<Trans>, a: Symbol)
    returns (states: seq<int>, alpha: seq<Symbol>, todo: seq<int>, v: seq<Symbol>)
    requires IsAutomaton(g, A) && AllProductive(g) && AllReached(A) && Lalr(g, A, s, m)
    requires Paths.IsWalk(ProperPart(g, A, s).SuccFn(), walk) && IsTrans(g, A, walk[0])
    requires a in ProperPart(g, A, s).base(walk[|walk| - 1])
    ensures FollowsAt(g, A, states, alpha, walk[0].0, walk[0].1, todo, v, a)
    decreases |walk|
  {
    hide IsAutomaton;
    hide AllProductive;
    hide AllReached;
    hide Lalr;
    hide IsPath;
    hide CanFollow;
    hide IncludesBy;
    var x := walk[0];
    if |walk| == 1 {
      FollowNode(g, A, s, m, x, a);
      EdgeFact(g, A, x.0, x.1);
      states, alpha := PathTo(A, x.0);
      todo, v := ReadSound(g, A, s, m, x, states, alpha, a);
    } else {
      var y := walk[1];
      assert y in ProperPart(g, A, s).SuccFn()(x);
      ProperEdge(g, A, s, m, x, y);
      states, alpha, todo, v := ProperWalk(g, A, s, m, walk[1..], a);
      var it, d :| ProperBy(g, A, s.nullable, x, y, it, d);
      IncludesItem(g, A, s.nullable, x, y, it, d);
      RuleNumber(g, A, y, it);
      states, alpha, todo := ProperStep(g, A, s, m, x, y, it, d, states, alpha, todo, v, a);
    }
  }

  lemma IncludesItem(g: Grammar, A: Automaton, nullable: set<Symbol>, x: Trans, y: Trans, it: Item, d: int)
    requires IncludesBy(g, A, nullable, x, y, it, d)
    ensures ItemFor(g, A, y, it)
  {
  }

  lemma PathTo(A: Automaton, st: int) returns (states: seq<int>, alpha: seq<Symbol>)
    requires AllReached(A) && 0 <= st < |A.C|
    ensures IsPath(A, states, Stack(alpha)) && states[|states| - 1] == st
  {
    assert HasPath(A, st);
    states, alpha :| IsPath(A, states, Stack(alpha)) && states[|states| - 1] == st;
  }

  lemma ProperSound(g: Grammar, A: Automaton, s: Sets, m: map<(int, Item), seq<Symbol>>, x: Trans, a: Symbol)
    returns (states: seq<int>, alpha: seq<Symbol>, todo: seq<int>, v: seq<Symbol>)
    requires IsAutomaton(g, A) && AllProductive(g) && AllReached(A) && Lalr(g, A, s, m) && IsTrans(g, A, x)
    requires ProperFollow(g, A, s, x, a)
    ensures FollowsAt(g, A, states, alpha, x.0, x.1, todo, v, a)
  {
    hide IsAutomaton;
    hide AllProductive;
    hide AllReached;
    hide Lalr;
    hide FollowsAt;
    hide ProperPart;
    var P := ProperPart(g, A, s);
    var z :| Digraph.Reach(P, x, z) && a in P.base(z);
    var walk :| Paths.Connects(P.SuccFn(), walk, x, z);
    states, alpha, todo, v := ProperWalk(g, A, s, m, walk, a);
  }

  /** a follows the nonterminal of x, after some path to the state of x, in some rightmost derivation. */
  ghost predicate Follows(g: Grammar, A: Automaton, x: Trans, a: Symbol) {
    exists states, alpha, todo, v :: FollowsAt(g, A, states, alpha, x.0, x.1, todo, v, a)
  }

  /** The pairs that belong to INCLUDES give the LALR(1) Follow sets. */
  lemma ProperExact(g: Grammar, A: Automaton, s: Sets, m: map<(int, Item), seq<Symbol>>, x: Trans, a: Symbol)
    requires IsAutomaton(g, A) && AllProductive(g) && AllReached(A) && Lalr(g, A, s, m) && IsTrans(g, A, x)
    ensures ProperFollow(g, A, s, x, a) <==> Follows(g, A, x, a)
  {
    hide IsAutomaton;
    hide AllProductive;
    hide AllReached;
    hide Lalr;
    hide ProperFollow;
    hide Derived;
    hide Tokens;
    if ProperFollow(g, A, s, x, a) {
      var states, alpha, todo, v := ProperSound(g, A, s, m, x, a);
    }
    if states, alpha, todo, v :| FollowsAt(g, A, states, alpha, x.0, x.1, todo, v, a) {
      FollowHas(g, A, s, m, todo, alpha, x.1, v, states);
    }
  }

  // ----- pairs that do not belong to INCLUDES

  /**
   * The source follows every item of a transition's nonterminal, not only those
   * that start there. An item inside its production adds a stray pair.
   */
  ghost predicate StrayPair(g: Grammar, A: Automaton, s: Sets, x: Trans, y: Trans) {
    IsTrans(g, A, x) && IsTrans(g, A, y) && Includes(g, A, s.nullable, x, y) && !Proper(g, A, s.nullable, x, y)
  }

  /** What follows y without stray pairs follows x without them. */
  ghost predicate Harmless(g: Grammar, A: Automaton, s: Sets, x: Trans, y: Trans) {
    forall a :: ProperFollow(g, A, s, y, a) ==> ProperFollow(g, A, s, x, a)
  }

  /** y can be reached from x along the pairs that the source uses. */
  ghost predicate Draws(s: Sets, x: Trans, y: Trans) {
    Digraph.Reach(s.alongIncludes, x, y)
  }

  lemma IncludesEdge(g: Grammar, A: Automaton, s: Sets, m: map<(int, Item), seq<Symbol>>, x: Trans, y: Trans)
    requires Lalr(g, A, s, m) && IsTrans(g, A, x) && IsTrans(g, A, y)
    ensures y in s.alongIncludes.rel(x) <==> Includes(g, A, s.nullable, x, y)
  {
    hide Includes;
    assert x in s.trans && y in s.trans;
  }

  lemma IncludesTarget(g: Grammar, A: Automaton, s: Sets, m: map<(int, Item), seq<Symbol>>, x: Trans, y: Trans)
    requires Lalr(g, A, s, m) && IsTrans(g, A, x) && y in s.alongIncludes.rel(x)
    ensures IsTrans(g, A, y)
  {
    hide Includes;
    assert x in s.trans;
  }

  /**
   * Along any walk of the source's pairs: what is read at its end follows the
   * first transition properly, or follows properly the second of a stray pair
   * that the walk uses.
   */
  lemma {:induction false} LastStray(g: Grammar, A: Automaton, s: Sets, m: map<(int, Item), seq<Symbol>>,
      walk: seq<Trans>, a: Symbol)
    returns (found: bool, x: Trans, y: Trans)
    requires Lalr(g, A, s, m) && Paths.IsWalk(s.alongIncludes.SuccFn(), walk) && IsTrans(g, A, walk[0])
    requires a in s.alongIncludes.base(walk[|walk| - 1])
    ensures if found then Draws(s, walk[0], x) && StrayPair(g, A, s, x, y) && ProperFollow(g, A, s, y, a)
      else ProperFollow(g, A, s, walk[0], a)
    decreases |walk|
  {
    hide Lalr;
    hide Includes;
    hide Proper;
    hide ProperFollow;
    found, x, y := false, walk[0], walk[0];
    if |walk| == 1 {
      FollowNode(g, A, s, m, walk[0], a);
      ProperBase(g, A, s, m, walk[0], a);
    } else {
      var next := walk[1];
      assert next in s.alongIncludes.SuccFn()(walk[0]);
      IncludesTarget(g, A, s, m, walk[0], next);
      IncludesEdge(g, A, s, m, walk[0], next);
      Digraph.ReachEdge(s.alongIncludes, walk[0], next);
      found, x, y := LastStray(g, A, s, m, walk[1..], a);
      if found {
        Digraph.ReachTrans(s.alongIncludes, walk[0], next, x);
      } else if Proper(g, A, s.nullable, walk[0], next) {
        ProperOn(g, A, s, m, walk[0], next, a);
      } else {
        found, x, y := true, walk[0], next;
        Paths.ReachesSelf(s.alongIncludes.SuccFn(), x);
      }
    }
  }

  lemma ProperOn(g: Grammar, A: Automaton, s: Sets, m: map<(int, Item), seq<Symbol>>, x: Trans, y: Trans, a: Symbol)
    requires Lalr(g, A, s, m) && IsTrans(g, A, x) && IsTrans(g, A, y) && Proper(g, A, s.nullable, x, y)
      && ProperFollow(g, A, s, y, a)
    ensures ProperFollow(g, A, s, x, a)
  {
    hide Lalr;
    hide ProperFollow;
    var it, d :| ProperBy(g, A, s.nullable, x, y, it, d);
    ProperVia(g, A, s, m, x, y, it, d, a);
  }

  lemma FollowWalk(g: Grammar, A: Automaton, s: Sets, m: map<(int, Item), seq<Symbol>>, x: Trans, a: Symbol)
    returns (walk: seq<Trans>)
    requires Lalr(g, A, s, m) && IsTrans(g, A, x) && x in s.follow && a in s.follow[x]
    ensures Paths.IsWalk(s.alongIncludes.SuccFn(), walk) && walk[0] == x && a in s.alongIncludes.base(walk[|walk| - 1])
  {
    hide ReadProblem;
    hide FollowProblem;
    hide Attached;
    hide LookDict;
    assert Digraph.Exact(s.alongIncludes, x, s.follow[x]);
    var z :| Digraph.Reach(s.alongIncludes, x, z) && a in s.alongIncludes.base(z);
    walk :| Paths.Connects(s.alongIncludes.SuccFn(), walk, x, z);
  }

  /** The second of a drawn stray pair gives what follows it to the computed set. */
  lemma DrawnWithin(g: Grammar, A: Automaton, s: Sets, m: map<(int, Item), seq<Symbol>>, w: Trans, x: Trans, y: Trans,
      a: Symbol)
    requires Lalr(g, A, s, m) && IsTrans(g, A, w) && Draws(s, w, x) && StrayPair(g, A, s, x, y)
      && ProperFollow(g, A, s, y, a)
    ensures w in s.follow && a in s.follow[w]
  {
    hide Lalr;
    hide Includes;
    hide Proper;
    hide ProperFollow;
    ProperWithin(g, A, s, m, y, a);
    FollowEquation(g, A, s, m, x, a);
    var walk :| Paths.Connects(s.alongIncludes.SuccFn(), walk, w, x);
    WalkWithin(g, A, s, m, walk, a);
  }

  lemma {:induction false} WalkWithin(g: Grammar, A: Automaton, s: Sets, m: map<(int, Item), seq<Symbol>>,
      walk: seq<Trans>, a: Symbol)
    requires Lalr(g, A, s, m) && Paths.IsWalk(s.alongIncludes.SuccFn(), walk) && IsTrans(g, A, walk[0])
    requires walk[|walk| - 1] in s.follow && a in s.follow[walk[|walk| - 1]]
    ensures walk[0] in s.follow && a in s.follow[walk[0]]
    decreases |walk|
  {
    hide Lalr;
    hide Includes;
    if |walk| > 1 {
      assert walk[1] in s.alongIncludes.SuccFn()(walk[0]);
      IncludesTarget(g, A, s, m, walk[0], walk[1]);
      IncludesEdge(g, A, s, m, walk[0], walk[1]);
      WalkWithin(g, A, s, m, walk[1..], a);
      FollowEquation(g, A, s, m, walk[0], a);
    }
  }

  /** The list of x holds what follows it, and nothing else. */
  ghost predicate FollowExactAt(g: Grammar, A: Automaton, s: Sets, x: Trans) {
    x in s.lists && forall a :: a in s.lists[x] <==> Follows(g, A, x, a)
  }

  /**
   * Where READS has no cycle but from a transition to itself, all computed Follow
   * lists are the LALR(1) sets exactly if every stray pair is harmless.
   */
  lemma FollowExactIff(g: Grammar, A: Automaton, s: Sets, m: map<(int, Item), seq<Symbol>>)
    requires IsAutomaton(g, A) && AllProductive(g) && AllReached(A) && Lalr(g, A, s, m) && SingleReads(s.alongReads)
    ensures (forall x :: IsTrans(g, A, x) ==> FollowExactAt(g, A, s, x)) <==>
      (forall x, y :: StrayPair(g, A, s, x, y) ==> Harmless(g, A, s, x, y))
  {
    hide IsAutomaton;
    hide AllProductive;
    hide AllReached;
    hide Lalr;
    hide ProperFollow;
    hide Follows;
    hide Includes;
    hide Proper;
    hide SingleReads;
    ListsAreSets(g, A, s, m);
    if forall x :: IsTrans(g, A, x) ==> FollowExactAt(g, A, s, x) {
      forall x, y | StrayPair(g, A, s, x, y) ensures Harmless(g, A, s, x, y) {
        forall a | ProperFollow(g, A, s, y, a) ensures ProperFollow(g, A, s, x, a) {
          Paths.ReachesSelf(s.alongIncludes.SuccFn(), x);
          DrawnWithin(g, A, s, m, x, x, y, a);
          assert FollowExactAt(g, A, s, x);
          ProperExact(g, A, s, m, x, a);
        }
      }
    }
    if forall x, y :: StrayPair(g, A, s, x, y) ==> Harmless(g, A, s, x, y) {
      forall x | IsTrans(g, A, x) ensures FollowExactAt(g, A, s, x) {
        HarmlessExact(g, A, s, m, x);
      }
    }
  }

  lemma HarmlessExact(g: Grammar, A: Automaton, s: Sets, m: map<(int, Item), seq<Symbol>>, x: Trans)
    requires IsAutomaton(g, A) && AllProductive(g) && AllReached(A) && Lalr(g, A, s, m) && IsTrans(g, A, x)
    requires s.lists == s.follow
    requires forall x', y :: StrayPair(g, A, s, x', y) ==> Harmless(g, A, s, x', y)
    ensures FollowExactAt(g, A, s, x)
  {
    hide IsAutomaton;
    hide AllProductive;
    hide AllReached;
    hide Lalr;
    hide ProperFollow;
    hide Follows;
    hide StrayPair;
    FollowEquation(g, A, s, m, x, DollarEnd);
    forall a ensures a in s.follow[x] <==> Follows(g, A, x, a) {
      ProperExact(g, A, s, m, x, a);
      if ProperFollow(g, A, s, x, a) {
        ProperWithin(g, A, s, m, x, a);
      }
      if a in s.follow[x] {
        var walk := FollowWalk(g, A, s, m, x, a);
        HarmlessWalk(g, A, s, m, walk, a);
      }
    }
  }

  lemma {:induction false} HarmlessWalk(g: Grammar, A: Automaton, s: Sets, m: map<(int, Item), seq<Symbol>>,
      walk: seq<Trans>, a: Symbol)
    requires Lalr(g, A, s, m) && Paths.IsWalk(s.alongIncludes.SuccFn(), walk) && IsTrans(g, A, walk[0])
    requires a in s.alongIncludes.base(walk[|walk| - 1])
    requires forall x, y :: StrayPair(g, A, s, x, y) ==> Harmless(g, A, s, x, y)
    ensures ProperFollow(g, A, s, walk[0], a)
    decreases |walk|
  {
    hide Lalr;
    hide Includes;
    hide Proper;
    hide ProperFollow;
    if |walk| == 1 {
      FollowNode(g, A, s, m, walk[0], a);
      ProperBase(g, A, s, m, walk[0], a);
    } else {
      var x, y := walk[0], walk[1];
      assert y in s.alongIncludes.SuccFn()(x);
      IncludesTarget(g, A, s, m, x, y);
      IncludesEdge(g, A, s, m, x, y);
      HarmlessWalk(g, A, s, m, walk[1..], a);
      if Proper(g, A, s.nullable, x, y) {
        ProperOn(g, A, s, m, x, y, a);
      } else {
        assert StrayPair(g, A, s, x, y) && Harmless(g, A, s, x, y);
      }
    }
  }

  // ----- the lookaheads

  /** The dot of an item inside its production never matches. */
  lemma InnerDiffers(g: Grammar, it: Item, r: Item)
    requires ItemOf(g, it) && it.dot > 0 && IsComplete(g, r)
    ensures !SameRule(g, it, r)
  {
    var p, q := g.productions[it.number].prod, g.productions[r.number].prod;
    if |p| == |q| {
      assert Dotted(p, it.dot, (it.dot - 1) + 1) != Some(q[it.dot - 1]);
    }
  }

  /** The comparison with a complete item succeeds only from the start of an equal production. */
  lemma LookbackFromStart(g: Grammar, it: Item, r: Item)
    requires SameRule(g, it, r) && IsComplete(g, r)
    ensures it.dot == 0 && g.productions[it.number].prod == g.productions[r.number].prod
    ensures g.productions[it.number].name == g.productions[r.number].name
  {
    var p, q := g.productions[it.number].prod, g.productions[r.number].prod;
    if it.dot > 0 {
      InnerDiffers(g, it, r);
      assert false;
    }
    forall i | 0 <= i < |q| ensures p[i] == q[i] {
      assert Dotted(p, it.dot, i + 1) == Some(q[i]);
    }
  }

  /** The time has come to reduce by rule k in state st, with a next. */
  ghost predicate Needed(g: Grammar, A: Automaton, st: int, k: int, a: Symbol, todo: seq<int>, alpha: seq<Symbol>,
      v: seq<Symbol>, states: seq<int>) {
    && 0 < k < |g.productions|
    && CanFollow(g, todo, alpha, g.productions[k].name, v, a)
    && IsPath(A, states, Stack(alpha + g.productions[k].prod)) && states[|states| - 1] == st
  }

  /** The reduction in question has a as its next symbol in some derivation. */
  ghost predicate NeededAt(g: Grammar, A: Automaton, st: int, k: int, a: Symbol) {
    exists todo, alpha, v, states :: Needed(g, A, st, k, a, todo, alpha, v, states)
  }

  /** The item of rule k at its end. */
  function End(g: Grammar, st: int, k: int): (int, Item)
    requires 0 <= k < |g.productions|
  {
    (st, Item(k, |g.productions[k].prod|))
  }

  /** Some transition that the reduction looks back to is followed by a, without stray pairs. */
  ghost predicate ProperLook(g: Grammar, A: Automaton, s: Sets, e: (int, Item), a: Symbol) {
    exists y :: IsTrans(g, A, y) && Lookback(g, A, y, e) && ProperFollow(g, A, s, y, a)
  }

  lemma AttachedBy(g: Grammar, A: Automaton, s: Sets, m: map<(int, Item), seq<Symbol>>, e: (int, Item), a: Symbol)
    returns (y: Trans)
    requires Lalr(g, A, s, m) && e in m && a in m[e]
    ensures IsTrans(g, A, y) && Lookback(g, A, y, e) && y in s.lists && a in s.lists[y]
  {
    hide Lookback;
    hide ReadProblem;
    hide FollowProblem;
    hide SingleReads;
    y :| y in s.trans && e in Listed(s.lookdict, y) && a in Listed(s.lists, y);
  }

  /** Without cycles in READS the lists hold the sets. */
  lemma ListsAreSets(g: Grammar, A: Automaton, s: Sets, m: map<(int, Item), seq<Symbol>>)
    requires Lalr(g, A, s, m) && SingleReads(s.alongReads)
    ensures s.lists == s.follow
  {
  }

  /** What follows properly where the reduction looks back to, is needed. */
  lemma LookNeeded(g: Grammar, A: Automaton, s: Sets, m: map<(int, Item), seq<Symbol>>, st: int, k: int, a: Symbol)
    requires IsAutomaton(g, A) && AllProductive(g) && AllReached(A) && Lalr(g, A, s, m)
    requires 0 < k < |g.productions| && 0 <= st < |A.C| && ProperLook(g, A, s, End(g, st, k), a)
    ensures NeededAt(g, A, st, k, a)
  {
    hide IsAutomaton;
    hide AllProductive;
    hide AllReached;
    hide Lalr;
    hide Along;
    hide IsPath;
    hide CanFollow;
    hide ProperFollow;
    var e := End(g, st, k);
    var y :| IsTrans(g, A, y) && Lookback(g, A, y, e) && ProperFollow(g, A, s, y, a);
    var it :| LookbackBy(g, A, y, e, it);
    LookbackFromStart(g, it, e.1);
    var rhs := g.productions[k].prod;
    assert g.productions[it.number].prod[0..] == rhs;
    var before, alpha, todo, v := ProperSound(g, A, s, m, y, a);
    var states := GoesAlong(g, A, before, alpha, rhs);
    assert Needed(g, A, st, k, a, todo, alpha, v, states);
  }

  /** What is needed follows properly where the reduction looks back to. */
  lemma NeededLook(g: Grammar, A: Automaton, s: Sets, m: map<(int, Item), seq<Symbol>>, st: int, k: int, a: Symbol)
    requires IsAutomaton(g, A) && Lalr(g, A, s, m) && 0 < k < |g.productions| && 0 <= st < |A.C|
      && NeededAt(g, A, st, k, a)
    ensures ProperLook(g, A, s, End(g, st, k), a)
  {
    hide IsAutomaton;
    hide Lalr;
    hide Derived;
    hide Along;
    hide IsPath;
    hide Tokens;
    hide ProperFollow;
    hide Lookback;
    var todo, alpha, v, states :| Needed(g, A, st, k, a, todo, alpha, v, states);
    var name, rhs := g.productions[k].name, g.productions[k].prod;
    assert rhs[..|rhs|] == rhs;
    var before := ThroughRule(g, A, todo, alpha, k, |rhs|, v, states, name);
    var y := (before[|before| - 1], name);
    FollowHas(g, A, s, m, todo, alpha, name, v, before);
    RuleName(g, A, k);
    LooksBack(g, A, y, st, k);
  }

  /** Every stray pair drawn by the reduction gives it nothing new. */
  ghost predicate HarmlessFor(g: Grammar, A: Automaton, s: Sets, e: (int, Item)) {
    forall w, x, y, a ::
      && IsTrans(g, A, w) && Lookback(g, A, w, e) && Draws(s, w, x)
      && StrayPair(g, A, s, x, y) && ProperFollow(g, A, s, y, a)
      ==> ProperLook(g, A, s, e, a)
  }

  ghost predicate LookaheadsExactAt(g: Grammar, A: Automaton, m: map<(int, Item), seq<Symbol>>, st: int, k: int)
    requires 0 <= k < |g.productions|
  {
    forall a :: a in LookOf(m)(st, End(g, st, k).1) <==> NeededAt(g, A, st, k, a)
  }

  /**
   * The computed lookaheads of a rule in a state are the LALR(1) ones, the
   * symbols that are next when some rightmost derivation reduces by the rule
   * there, exactly if the stray pairs that it draws give it nothing new. This is
   * of the lists as they are shared, where READS has no cycle but from a
   * transition to itself.
   */
  lemma LookaheadsExact(g: Grammar, A: Automaton, s: Sets, m: map<(int, Item), seq<Symbol>>, st: int, k: int)
    requires IsAutomaton(g, A) && AllProductive(g) && AllReached(A) && Lalr(g, A, s, m) && SingleReads(s.alongReads)
    requires 0 < k < |g.productions| && 0 <= st < |A.C|
    ensures LookaheadsExactAt(g, A, m, st, k) <==> HarmlessFor(g, A, s, End(g, st, k))
  {
    hide IsAutomaton;
    hide AllProductive;
    hide AllReached;
    hide Lalr;
    hide NeededAt;
    hide Lookback;
    hide ProperFollow;
    hide StrayPair;
    hide Draws;
    hide SingleReads;
    var e := End(g, st, k);
    forall a ensures ProperLook(g, A, s, e, a) <==> NeededAt(g, A, st, k, a) {
      if ProperLook(g, A, s, e, a) {
        LookNeeded(g, A, s, m, st, k, a);
      }
      if NeededAt(g, A, st, k, a) {
        NeededLook(g, A, s, m, st, k, a);
      }
    }
    if LookaheadsExactAt(g, A, m, st, k) {
      forall w, x, y, a | IsTrans(g, A, w) && Lookback(g, A, w, e) && Draws(s, w, x) && StrayPair(g, A, s, x, y)
          && ProperFollow(g, A, s, y, a)
        ensures ProperLook(g, A, s, e, a)
      {
        DrawnWithin(g, A, s, m, w, x, y, a);
        AttachedWhere(g, A, s, m, w, e);
      }
    }
    if HarmlessFor(g, A, s, e) {
      forall a ensures a in LookOf(m)(st, e.1) <==> NeededAt(g, A, st, k, a) {
        if a in LookOf(m)(st, e.1) {
          OnlyNeeded(g, A, s, m, e, a);
        }
        if y :| IsTrans(g, A, y) && Lookback(g, A, y, e) && ProperFollow(g, A, s, y, a) {
          ProperWithin(g, A, s, m, y, a);
          AttachedWhere(g, A, s, m, y, e);
        }
      }
    }
  }

  lemma OnlyNeeded(g: Grammar, A: Automaton, s: Sets, m: map<(int, Item), seq<Symbol>>, e: (int, Item), a: Symbol)
    requires Lalr(g, A, s, m) && SingleReads(s.alongReads) && HarmlessFor(g, A, s, e) && e in m && a in m[e]
    ensures ProperLook(g, A, s, e, a)
  {
    hide SingleReads;
    hide Lalr;
    hide Lookback;
    hide ProperFollow;
    hide StrayPair;
    hide Draws;
    var w := AttachedBy(g, A, s, m, e, a);
    ListsAreSets(g, A, s, m);
    var walk := FollowWalk(g, A, s, m, w, a);
    var found, x, y := LastStray(g, A, s, m, walk, a);
  }

  // ----- a grammar with a stray pair

  /** S : N | A b c    N : A B    A : a    B : N c | b */
  function Stray(): Grammar {
    var none := Prec(Right, 0);
    Grammar([Production(AugStart, [Name("S")], none, 0),
             Production(Name("S"), [Name("N")], none, 1),
             Production(Name("S"), [Name("A"), Name("b"), Name("c")], none, 2),
             Production(Name("N"), [Name("A"), Name("B")], none, 3),
             Production(Name("A"), [Name("a")], none, 4),
             Production(Name("B"), [Name("N"), Name("c")], none, 5),
             Production(Name("B"), [Name("b")], none, 6)],
            {Name("a"), Name("b"), Name("c")}, [Name("S"), Name("N"), Name("A"), Name("B")], map[])
  }

  /** The rules, one by one. */
  ghost predicate StrayRules(g: Grammar) {
    && g.WellFormed() && |g.productions| == 7
    && g.productions[0].prod == [Name("S")]
    && g.productions[1].name == Name("S") && g.productions[1].prod == [Name("N")]
    && g.productions[2].name == Name("S") && g.productions[2].prod == [Name("A"), Name("b"), Name("c")]
    && g.productions[3].name == Name("N") && g.productions[3].prod == [Name("A"), Name("B")]
    && g.productions[4].name == Name("A") && g.productions[4].prod == [Name("a")]
    && g.productions[5].name == Name("B") && g.productions[5].prod == [Name("N"), Name("c")]
    && g.productions[6].name == Name("B") && g.productions[6].prod == [Name("b")]
    && g.terminals == {Name("a"), Name("b"), Name("c")} && g.nonterminals ==
       [Name("S"), Name("N"), Name("A"), Name("B")]
  }

  lemma StrayHas()
    ensures StrayRules(Stray())
  {
  }

  /** Where the states of interest are, in any automaton of the grammar. */
  ghost predicate StrayStates(g: Grammar, A: Automaton, q: int, st: int) {
    && 0 <= q < |A.C| && 0 <= st < |A.C|
    && (q, Name("N")) in A.delta && (q, Name("B")) in A.delta && (A.delta[(q, Name("N"))], Name("c")) in A.delta
    && (q, Name("b")) in A.delta && A.delta[(q, Name("b"))] == st && (st, Name("c")) in A.delta
    && Item(3, 1) in A.C[q] && Item(6, 0) in A.C[q] && Item(6, 1) in A.C[st] && Item(2, 2) in A.C[st]
  }

  lemma FindStates(g: Grammar, A: Automaton) returns (q: int, st: int)
    requires IsAutomaton(g, A) && StrayRules(g)
    ensures StrayStates(g, A, q, st)
  {
    assert A.C[0][0] == Item(0, 0) && |A.C| > 0;
    hide IsAutomaton;
    StartItem(g, A, Item(0, 0), 1);
    StartItem(g, A, Item(0, 0), 2);
    StartItem(g, A, Item(1, 0), 3);
    MovesOn(g, A, 0, Item(2, 0), Name("A"));
    MovesOn(g, A, 0, Item(3, 0), Name("A"));
    var x := (0, Name("A"));
    q := A.delta[x];
    TargetClosed(g, A, x, Item(3, 1), 5);
    TargetClosed(g, A, x, Item(3, 1), 6);
    MovesOn(g, A, q, Item(3, 1), Name("B"));
    MovesOn(g, A, q, Item(5, 0), Name("N"));
    MovesOn(g, A, A.delta[(q, Name("N"))], Item(5, 1), Name("c"));
    MovesOn(g, A, q, Item(6, 0), Name("b"));
    MovesOn(g, A, q, Item(2, 1), Name("b"));
    st := A.delta[(q, Name("b"))];
    MovesOn(g, A, st, Item(2, 2), Name("c"));
  }

  /** The source's INCLUDES relates the transition on B to the one on N, and c follows N. */
  lemma StrayFollow(g: Grammar, A: Automaton, s: Sets, m: map<(int, Item), seq<Symbol>>, q: int, st: int)
    requires IsAutomaton(g, A) && StrayRules(g) && Lalr(g, A, s, m) && StrayStates(g, A, q, st)
    ensures Name("c") in LookOf(m)(st, Item(6, 1))
  {
    hide IsAutomaton;
    hide Lalr;
    hide Grammar.WellFormed;
    var b, n, c := (q, Name("B")), (q, Name("N")), Name("c");
    assert IsTrans(g, A, b) && IsTrans(g, A, n);
    assert DirectlyReads(g, A, n, c);
    ReadsDirect(g, A, s, m, n, c);
    FollowEquation(g, A, s, m, n, c);
    assert g.productions[3].prod[1..1] == [] && g.productions[3].prod[2..] == [];
    assert IncludesBy(g, A, s.nullable, b, n, Item(3, 1), 1);
    FollowEquation(g, A, s, m, b, c);
    assert [Name("b")][..0] == [];
    assert Along(A, q, [Name("b")]) == st;
    LooksBack(g, A, b, st, 6);
    AttachedWhere(g, A, s, m, b, (st, Item(6, 1)));
  }

  // nothing follows N or S at the front of a form, B is never there, and nothing follows B after A

  lemma AtFrontS(g: Grammar, A: Automaton, todo: seq<int>, v: seq<Symbol>)
    requires IsAutomaton(g, A) && StrayRules(g) && Derived(g, todo, [], Name("S"), v)
    ensures v == []
  {
    hide IsAutomaton;
    hide Rightmost;
    hide Grammar.DerivesIn;
    hide Grammar.WellFormed;
    hide NoNonterminal;
    var atStart, todo0, alpha0, k, d, v0, u, n := Origin(g, A, todo, [], Name("S"), v);
  }

  lemma AtFrontB(g: Grammar, A: Automaton, todo: seq<int>, v: seq<Symbol>)
    requires IsAutomaton(g, A) && StrayRules(g)
    ensures !Derived(g, todo, [], Name("B"), v)
  {
    hide IsAutomaton;
    hide Rightmost;
    hide Grammar.DerivesIn;
    hide Grammar.WellFormed;
    hide NoNonterminal;
    if Derived(g, todo, [], Name("B"), v) {
      var atStart, todo0, alpha0, k, d, v0, u, n := Origin(g, A, todo, [], Name("B"), v);
      assert false;
    }
  }

  lemma AtFrontN(g: Grammar, A: Automaton, todo: seq<int>, v: seq<Symbol>)
    requires IsAutomaton(g, A) && StrayRules(g) && Derived(g, todo, [], Name("N"), v)
    ensures v == []
  {
    hide IsAutomaton;
    hide Rightmost;
    hide Grammar.DerivesIn;
    hide Grammar.WellFormed;
    hide NoNonterminal;
    var atStart, todo0, alpha0, k, d, v0, u, n := Origin(g, A, todo, [], Name("N"), v);
    assert k == 1 || k == 5;
    AtFrontB(g, A, todo0, v0);
    assert k == 1 && g.productions[1].prod[1..] == [] && alpha0 == [];
    AtFrontS(g, A, todo0, v0);
    AutomatonGrammar(g, A);
    NothingFromNothing(g, u, n);
  }

  lemma AfterA(g: Grammar, A: Automaton, todo: seq<int>, v: seq<Symbol>)
    requires IsAutomaton(g, A) && StrayRules(g) && Derived(g, todo, [Name("A")], Name("B"), v)
    ensures v == []
  {
    hide IsAutomaton;
    hide Rightmost;
    hide Grammar.DerivesIn;
    hide Grammar.WellFormed;
    hide NoNonterminal;
    var atStart, todo0, alpha0, k, d, v0, u, n := Origin(g, A, todo, [Name("A")], Name("B"), v);
    assert k == 3 && d == 1;
    assert |alpha0| == 0;
    assert g.productions[3].prod[2..] == [];
    AtFrontN(g, A, todo0, v0);
    AutomatonGrammar(g, A);
    NothingFromNothing(g, u, n);
  }

  /** The rules of S start only in the first state. */
  lemma OnlyFromStart(g: Grammar, A: Automaton, states: seq<int>, alpha: seq<Symbol>)
    requires IsAutomaton(g, A) && StrayRules(g) && IsPath(A, states, Stack(alpha)) && TopHas(g, A, states, Item(2, 0))
    ensures alpha == []
  {
    hide IsAutomaton;
    hide Grammar.WellFormed;
    hide IsPath;
    var J := A.C[states[|states| - 1]];
    var idx :| 0 <= idx < |J| && J[idx] == Item(2, 0);
    var i := ClosureReason(g, A, states, Stack(alpha), idx);
    assert J[i] == Item(0, 0);
    assert TopHas(g, A, states, J[i]);
    FirstOnlyAtStart(g, A, states, alpha, J[i]);
  }

  lemma StrayNeverNeeded(g: Grammar, A: Automaton, q: int, st: int, todo: seq<int>, alpha: seq<Symbol>, v: seq<Symbol>,
      states: seq<int>)
    requires IsAutomaton(g, A) && StrayRules(g) && StrayStates(g, A, q, st)
    ensures !Needed(g, A, st, 6, Name("c"), todo, alpha, v, states)
  {
    hide IsAutomaton;
    hide Grammar.WellFormed;
    hide Derived;
    if Needed(g, A, st, 6, Name("c"), todo, alpha, v, states) {
      PathToSt(g, A, q, st, alpha, states);
      AfterA(g, A, todo, v);
      assert false;
    }
  }

  lemma PathToSt(g: Grammar, A: Automaton, q: int, st: int, alpha: seq<Symbol>, states: seq<int>)
    requires IsAutomaton(g, A) && StrayRules(g) && StrayStates(g, A, q, st)
    requires IsPath(A, states, Stack(alpha + [Name("b")])) && states[|states| - 1] == st
    ensures alpha == [Name("A")]
  {
    hide IsAutomaton;
    hide Grammar.WellFormed;
    var syms := Stack(alpha + [Name("b")]);
    Handle(g, A, states, syms, Item(2, 2));
    assert |states| >= 3;
    var n := |states| - 2;
    PathPrefix(A, states, syms, n);
    assert syms[n..] == [Name("A"), Name("b")] by {
      assert g.productions[2].prod[..2] == [Name("A"), Name("b")];
    }
    assert syms[n] == Name("A") && syms[n] == alpha[n - 1];
    assert syms[..n] == Stack(alpha[..n - 1]);
    OnlyFromStart(g, A, states[..n], alpha[..n - 1]);
    assert alpha == [alpha[0]];
  }

  /**
   * In every automaton of this grammar some state gets c as a lookahead of the
   * rule B : b, though no derivation ever reduces there with c next; and as c
   * can be shifted there, a conflict is found where there is none.
   */
  lemma StrayLookahead(A: Automaton, s: Sets, m: map<(int, Item), seq<Symbol>>) returns (st: int)
    requires IsAutomaton(Stray(), A) && Lalr(Stray(), A, s, m)
    ensures Name("c") in LookOf(m)(st, Item(6, 1))
    ensures forall todo, alpha, v, states :: !Needed(Stray(), A, st, 6, Name("c"), todo, alpha, v, states)
    ensures 0 <= st < |A.C| && Item(6, 1) in A.C[st] && (st, Name("c")) in A.delta
    ensures !NoConflict(Stray(), A, LookOf(m))
  {
    hide IsAutomaton;
    hide Lalr;
    hide Needed;
    StrayHas();
    hide Stray;
    var g := Stray();
    var q;
    q, st := FindStates(g, A);
    StrayFollow(g, A, s, m, q, st);
    forall todo, alpha, v, states ensures !Needed(g, A, st, 6, Name("c"), todo, alpha, v, states) {
      StrayNeverNeeded(g, A, q, st, todo, alpha, v, states);
    }
    StrayConflict(g, A, LookOf(m), q, st);
  }

  lemma StrayConflict(g: Grammar, A: Automaton, look: LRTable.Lookaheads, q: int, st: int)
    requires IsAutomaton(g, A) && StrayRules(g) && StrayStates(g, A, q, st) && Name("c") in look(st, Item(6, 1))
    ensures !NoConflict(g, A, look)
  {
    hide IsAutomaton;
    hide Grammar.WellFormed;
    var c := Name("c");
    EdgeFact(g, A, st, c);
    assert Proposed(g, A, look, st, Item(6, 1), c, -6);
    assert Proposed(g, A, look, st, Item(2, 2), c, A.delta[(st, c)]);
  }
}
