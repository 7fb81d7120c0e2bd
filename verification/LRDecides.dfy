/** Without conflicts the engine comes to a verdict on every input, and reads only what a sentence can start with. */
module LRDecides {
  import opened Options
  import opened Grammar
  import opened LR0
  import opened LRTable
  import opened LRParser
  import opened LRComplete
  import opened LALRExact
  import L = LALR
  import LA = Lookaheads
  import F = Finite
  import First
  import Productive

  // ----- what is behind the rightmost nonterminal stays

  lemma StepLeft(g: Grammar, a: seq<Symbol>, v: seq<Symbol>, b: seq<Symbol>, p: int) returns (a': seq<Symbol>)
    requires g.WellFormed() && RightmostStep(g, a + v, b, p) && NoNonterminal(g, v)
    ensures b == a' + v && RightmostStep(g, a, a', p)
  {
    var f := a + v;
    var i :| RightmostAt(g, f, b, p, i);
    var rule := g.productions[p];
    assert rule.name in g.nonterminals;
    if i >= |a| {
      assert false;
    }
    CutLeft(a, v, i);
    PartsHaveNone(g, a[i + 1..], v);
    a' := a[..i] + rule.prod + a[i + 1..];
    assert b == a' + v;
    assert RightmostAt(g, a, a', p, i);
  }

  /** A rightmost derivation from a form that ends with terminals works on what stands before them. */
  lemma {:induction false} DeriveLeft(g: Grammar, a: seq<Symbol>, v: seq<Symbol>, r: seq<int>, w: seq<Symbol>)
    returns (w': seq<Symbol>)
    requires g.WellFormed() && Rightmost(g, a + v, r, w) && NoNonterminal(g, v)
    ensures w == w' + v && Rightmost(g, a, r, w')
    decreases |r|
  {
    hide Rightmost;
    hide RightmostStep;
    hide NoNonterminal;
    hide Grammar.WellFormed;
    if r == [] {
      NoReductions(g, a + v, w);
      NoReductions(g, a, a);
      w' := a;
    } else {
      var last := |r| - 1;
      var next := FirstStepOf(g, a + v, r, w);
      var a' := StepLeft(g, a, v, next, r[last]);
      w' := DeriveLeft(g, a', v, r[..last], w);
      RightmostAppends(g, a, a', r[last], r[..last], w');
      assert r[..last] + [r[last]] == r;
    }
  }

  // ----- every stack can be completed

  /** The tables' automaton reads what is on the stack. */
  ghost predicate Stacked(A: Automaton, c: Config) {
    IsPath(A, c.states, c.syms) && Bottomed(c)
  }

  /** In some derivation y follows what is on the stack. */
  ghost predicate Completes(g: Grammar, c: Config, y: seq<Symbol>, todo: seq<int>) {
    |c.syms| > 0 && Tokens(g, y) && Reached(g, todo, c.syms[1..] + y)
  }

  lemma TopItem(g: Grammar, A: Automaton, c: Config) returns (idx: int)
    requires IsAutomaton(g, A) && Stacked(A, c)
    ensures 0 <= c.states[|c.states| - 1] < |A.C| && 0 <= idx < |A.C[c.states[|c.states| - 1]]|
  {
    var top := |c.states| - 1;
    if top == 0 {
      assert A.C[0][0] == Item(0, 0);
      idx := 0;
    } else {
      var s, x := c.states[top - 1], c.syms[top];
      assert (s, x) in A.delta;
      var it := WaitsFor(g, A, s, x);
      MovesOn(g, A, s, it, x);
      var moved := Item(it.number, it.dot + 1);
      idx :| 0 <= idx < |A.C[c.states[top]]| && A.C[c.states[top]][idx] == moved;
    }
  }

  /** From a valid item on: its rule's rest becomes terminals. */
  lemma CompleteItem(g: Grammar, todo: seq<int>, alpha0: seq<Symbol>, v: seq<Symbol>, alpha: seq<Symbol>, it: Item)
    returns (y: seq<Symbol>, todo': seq<int>)
    requires g.WellFormed() && AllProductive(g) && ValidFor(g, todo, alpha0, v, alpha, it)
    ensures Tokens(g, y) && Reached(g, todo', alpha + y)
  {
    hide Rightmost;
    hide Grammar.DerivesIn;
    hide NoNonterminal;
    hide AllProductive;
    hide Grammar.WellFormed;
    var rhs := g.productions[it.number].prod;
    var w, n := RestIsProductive(g, it.number, it.dot);
    var before := Apply(g, todo, alpha0, it.number, v);
    assert rhs == rhs[..it.dot] + rhs[it.dot..];
    assert alpha0 + rhs + v == alpha + rhs[it.dot..] + v;
    TokensAreNot(g, v);
    todo' := DeriveOn(g, before, alpha, rhs[it.dot..], v, w, n);
    y := w + v;
    assert alpha + w + v == alpha + y;
  }

  /** From the item of the start rule on. */
  lemma CompleteStart(g: Grammar, A: Automaton, c: Config, it: Item) returns (y: seq<Symbol>, todo: seq<int>)
    requires IsAutomaton(g, A) && AllProductive(g) && Stacked(A, c) && TopHas(g, A, c.states, it) && it.number == 0
    ensures Completes(g, c, y, todo)
  {
    hide IsAutomaton;
    hide AllProductive;
    hide IsPath;
    LA.StartHasOne(g, A);
    L.AutomatonGrammar(g, A);
    var start, alpha := g.productions[0].prod, c.syms[1..];
    assert c.syms == Stack(alpha);
    Handle(g, A, c.states, c.syms, it);
    if it.dot == 0 {
      FirstOnlyAtStart(g, A, c.states, alpha, it);
      KnowsPart(g, 0, 0);
      assert start[0..] == start;
      var w, n := FormIsProductive(g, start);
      NoReductions(g, start, start);
      assert [] + start + [] == start;
      todo := DeriveOn(g, [], [], start, [], w, n);
      y := w;
      assert [] + w + [] == alpha + y;
    } else {
      BelowStart(g, A, c, it);
      NoReductions(g, start, start);
      todo, y := [], [];
      assert alpha + y == start;
    }
  }

  lemma BelowStart(g: Grammar, A: Automaton, c: Config, it: Item)
    requires IsAutomaton(g, A) && Stacked(A, c) && TopHas(g, A, c.states, it) && it.number == 0 && it.dot > 0
    requires |g.productions| > 0 && |g.productions[0].prod| == 1
    ensures c.syms[1..] == g.productions[0].prod
  {
    hide IsAutomaton;
    Handle(g, A, c.states, c.syms, it);
    var k := |c.states| - 2;
    PathPrefix(A, c.states, c.syms, k + 1);
    FirstOnlyAtStart(g, A, c.states[..k + 1], c.syms[..k + 1][1..], Item(0, 0));
  }

  /** Whatever is on the stack is the beginning of what some sentence becomes. */
  lemma StackCompletes(g: Grammar, A: Automaton, c: Config) returns (y: seq<Symbol>, todo: seq<int>)
    requires IsAutomaton(g, A) && AllProductive(g) && Stacked(A, c)
    ensures Completes(g, c, y, todo)
  {
    hide IsAutomaton;
    hide AllProductive;
    hide ValidFor;
    hide Reached;
    var idx := TopItem(g, A, c);
    var it := A.C[c.states[|c.states| - 1]][idx];
    L.AutomatonGrammar(g, A);
    assert c.syms == Stack(c.syms[1..]);
    if it.number > 0 {
      var before, alpha0, v := ItemsAreValid(g, A, c.states, c.syms[1..], idx);
      y, todo := CompleteItem(g, before, alpha0, v, c.syms[1..], it);
    } else {
      HandleStep(g, A, c.states, c.syms, it);
      y, todo := CompleteStart(g, A, c, it);
    }
  }

  // ----- reductions in a row

  ghost predicate ReducesNow(g: Grammar, t: Tables, c: Config) {
    ActionFor(t, c).Act? && ActionFor(t, c).n < 0 && Poppable(g, t, c, -ActionFor(t, c).n)
  }

  /** The stack after one reduction more. */
  ghost function Once(g: Grammar, t: Tables, c: Config): Config
    requires ReducesNow(g, t, c)
  {
    Reduced(g, t, c, -ActionFor(t, c).n)
  }

  /** With the lookahead it has, the engine makes n reductions before anything else. */
  ghost predicate ReducesFor(g: Grammar, t: Tables, c: Config, n: nat)
    decreases n
  {
    n == 0 || (ReducesNow(g, t, c) && ReducesFor(g, t, Once(g, t, c), n - 1))
  }

  ghost function Later(g: Grammar, t: Tables, c: Config, n: nat): Config
    requires ReducesFor(g, t, c, n)
    decreases n
  {
    if n == 0 then c else Later(g, t, Once(g, t, c), n - 1)
  }

  ghost function Facing(c: Config, a: Symbol): Config {
    c.(lookahead := Some(a))
  }

  /** The rule reduced by is that of an item on top of the stack. */
  lemma OnceOffered(g: Grammar, A: Automaton, look: LRTable.Lookaheads, t: Tables, c: Config) returns (k: int)
    requires TablesFor(g, A, look, t) && Stacked(A, c) && ReducesNow(g, t, c)
    ensures k == -ActionFor(t, c).n && TopHas(g, A, c.states, Item(k, |g.productions[k].prod|))
    ensures Reducible(g, A, c, k)
  {
    hide TablesFor;
    hide IsAutomaton;
    hide IsPath;
    TableFacts(g, A, look, t);
    var st, a := c.states[|c.states| - 1], c.lookahead.value;
    k := -ActionFor(t, c).n;
    var it := RowEntry(g, A, look, t, st, a);
    OfferKinds(g, A, look, st, it, a);
    Handle(g, A, c.states, c.syms, it);
  }

  /** The rule reduced by, and the stack below its right-hand side. */
  lemma OnceIs(g: Grammar, A: Automaton, look: LRTable.Lookaheads, t: Tables, c: Config)
    returns (k: int, u: seq<Symbol>)
    requires TablesFor(g, A, look, t) && Stacked(A, c) && ReducesNow(g, t, c)
    ensures k == -ActionFor(t, c).n && TopHas(g, A, c.states, Item(k, |g.productions[k].prod|))
    ensures c.syms[1..] == u + g.productions[k].prod && Once(g, t, c).syms[1..] == u + [g.productions[k].name]
    ensures Stacked(A, Once(g, t, c)) && Once(g, t, c).lookahead == c.lookahead && Once(g, t, c).pos == c.pos
  {
    hide TablesFor;
    hide IsPath;
    hide ActionFor;
    k := OnceOffered(g, A, look, t, c);
    var d := Popped(g, c, k);
    u := d.syms[1..];
    assert c.syms == d.syms + g.productions[k].prod;
    GotoExists(g, A, look, t, c, k);
    PathPrefix(A, c.states, c.syms, |d.states|);
    PathExtends(A, d.states, d.syms, g.productions[k].name, Once(g, t, c).states[|d.states|]);
  }

  /** A reduction made facing a is made facing the first symbol of whatever completes the stack that it gives. */
  lemma SameOnce(g: Grammar, A: Automaton, look: LRTable.Lookaheads, t: Tables, c: Config, y: seq<Symbol>,
      todo: seq<int>)
    returns (todo': seq<int>)
    requires TablesFor(g, A, look, t) && NoConflict(g, A, look) && Adequate(g, A, look) && Stacked(A, c)
    requires ReducesNow(g, t, c) && Completes(g, Once(g, t, c), y, todo)
    ensures Completes(g, c, y, todo')
    ensures var d := Facing(c, LookaheadOf(y));
      ReducesNow(g, t, d) && Once(g, t, d) == Facing(Once(g, t, c), LookaheadOf(y))
  {
    hide TablesFor;
    hide NoConflict;
    hide Adequate;
    hide IsAutomaton;
    hide Rightmost;
    hide IsPath;
    TableFacts(g, A, look, t);
    var k, u := OnceIs(g, A, look, t, c);
    var st, it := c.states[|c.states| - 1], Item(k, |g.productions[k].prod|);
    RuleName(g, A, k);
    TokensAreNot(g, y);
    assert Derived(g, todo, u, g.productions[k].name, y);
    assert c.syms == Stack(u + g.productions[k].prod);
    AdequateHere(g, A, look, todo, u, k, y, c.states);
    EntryIs(g, A, look, t, st, it, LookaheadOf(y));
    todo' := Apply(g, todo, u, k, y);
  }

  lemma {:induction false} SameReductions(g: Grammar, A: Automaton, look: LRTable.Lookaheads, t: Tables, c: Config,
      n: nat, y: seq<Symbol>, todo: seq<int>) returns (todo': seq<int>)
    requires TablesFor(g, A, look, t) && NoConflict(g, A, look) && Adequate(g, A, look) && Stacked(A, c)
    requires ReducesFor(g, t, c, n) && Completes(g, Later(g, t, c, n), y, todo)
    ensures Completes(g, c, y, todo') && ReducesFor(g, t, Facing(c, LookaheadOf(y)), n)
    decreases n
  {
    hide TablesFor;
    hide NoConflict;
    hide Adequate;
    hide Stacked;
    hide Completes;
    hide ReducesNow;
    if n == 0 {
      todo' := todo;
    } else {
      var k, u := OnceIs(g, A, look, t, c);
      var after := SameReductions(g, A, look, t, Once(g, t, c), n - 1, y, todo);
      todo' := SameOnce(g, A, look, t, c, y, after);
    }
  }

  /** What is not looked at does not matter. */
  lemma {:induction false} ReducesAlike(g: Grammar, t: Tables, c: Config, d: Config, n: nat)
    requires ReducesFor(g, t, c, n)
    requires d.states == c.states && d.syms == c.syms && d.lookahead == c.lookahead
    ensures ReducesFor(g, t, d, n)
    decreases n
  {
    if n > 0 {
      ReducesAlike(g, t, Once(g, t, c), Once(g, t, d), n - 1);
    }
  }

  /** Reductions in a row are rounds that go on. */
  lemma {:induction false} RowRuns(g: Grammar, t: Tables, input: seq<Symbol>, c: Config, n: nat)
    requires c.lookahead.Some? && ReducesFor(g, t, c, n)
    ensures RunFor(g, t, input, c, n) == (Continue, Later(g, t, c, n))
    decreases n
  {
    hide Next;
    hide RunFor;
    hide Reduced;
    hide Poppable;
    if n == 0 {
      RunDone(g, t, input, c);
    } else {
      NextIs(g, t, input, c, c);
      RunUnfold(g, t, input, c, n);
      OnceKeeps(g, t, c);
      RowRuns(g, t, input, Once(g, t, c), n - 1);
    }
  }

  lemma OnceKeeps(g: Grammar, t: Tables, c: Config)
    requires ReducesNow(g, t, c)
    ensures Once(g, t, c).lookahead == c.lookahead && Once(g, t, c).pos == c.pos
  {
  }

  // ----- facing the first symbol of what completes the stack, the row ends

  lemma SymbolKnown(g: Grammar, A: Automaton, st: int, x: Symbol)
    requires IsAutomaton(g, A) && (st, x) in A.delta
    ensures x in g.terminals || x in g.nonterminals
  {
    var it := WaitsFor(g, A, st, x);
    assert GoodSet(g, A.C[st]);
    assert g.Knows(g.productions[it.number].prod);
  }

  lemma StackKnown(g: Grammar, A: Automaton, c: Config, x: Symbol)
    requires IsAutomaton(g, A) && Stacked(A, c) && x in c.syms[1..]
    ensures x in g.terminals || x in g.nonterminals
  {
    hide IsAutomaton;
    var i :| 0 <= i < |c.syms[1..]| && c.syms[1..][i] == x;
    assert c.syms[i + 1] == x;
    SymbolKnown(g, A, c.states[i], x);
  }

  /** The path to the end of word goes on with what is on the stack behind it. */
  lemma InsideStack(A: Automaton, c: Config, word: seq<Symbol>, z: seq<Symbol>, y: seq<Symbol>, states: seq<int>)
    requires Stacked(A, c) && IsPath(A, states, Stack(word))
    requires c.syms[1..] + y == word + z && |word| < |c.syms| - 1
    ensures z == c.syms[1..][|word|..] + y && (states[|states| - 1], z[0]) in A.delta
  {
    var alpha, n := c.syms[1..], |word| + 1;
    assert (alpha + y)[..|word|] == word && (alpha + y)[|word|..] == z;
    assert c.syms[..n] == Stack(word);
    PathPrefix(A, c.states, c.syms, n);
    PathUnique(A, c.states[..n], states, Stack(word));
    assert z[0] == c.syms[n];
  }

  lemma InsideTokens(g: Grammar, A: Automaton, c: Config, n: nat, z: seq<Symbol>, y: seq<Symbol>)
    requires IsAutomaton(g, A) && Stacked(A, c) && n < |c.syms| && z == c.syms[1..][n..] + y
    requires NoNonterminal(g, z) && Tokens(g, y)
    ensures Tokens(g, z)
  {
    hide IsAutomaton;
    hide Stacked;
    forall x | x in z ensures x in g.terminals {
      if x !in y {
        assert x in c.syms[1..];
        StackKnown(g, A, c, x);
      }
    }
  }

  /** A state that offers a reduction for a terminal on which it leads on has a conflict. */
  lemma TwoOffers(g: Grammar, A: Automaton, look: LRTable.Lookaheads, t: Tables, st: int, it: Item, a: Symbol)
    requires TablesFor(g, A, look, t) && 0 <= st < |A.C| && it in A.C[st] && IsComplete(g, it) && it.number > 0
    requires a in look(st, it) && a in g.terminals && (st, a) in A.delta
    ensures !NoConflict(g, A, look)
  {
    hide TablesFor;
    hide IsAutomaton;
    TableFacts(g, A, look, t);
    var other := WaitsFor(g, A, st, a);
    OfferKinds(g, A, look, st, it, a);
    OfferKinds(g, A, look, st, other, a);
    assert Proposed(g, A, look, st, it, a, Offer(g, A, st, it, a));
    assert Proposed(g, A, look, st, other, a, Offer(g, A, st, other, a));
    assert !OnlyOffer(g, A, look, st, a, Offer(g, A, st, it, a));
  }

  /** A handle inside the stack would have been reduced: its state offers both that and going on. */
  lemma NoneInside(g: Grammar, A: Automaton, look: LRTable.Lookaheads, t: Tables, c: Config, y: seq<Symbol>,
      todo: seq<int>, mid: seq<Symbol>, i: int)
    requires TablesFor(g, A, look, t) && NoConflict(g, A, look) && Adequate(g, A, look) && Stacked(A, c)
    requires todo != [] && Tokens(g, y) && RightmostAt(g, mid, c.syms[1..] + y, todo[0], i)
      && Reached(g, todo[1..], mid)
    ensures |c.syms| <= i + |g.productions[todo[0]].prod| + 1
  {
    hide TablesFor;
    hide NoConflict;
    hide Adequate;
    hide IsAutomaton;
    hide Rightmost;
    hide IsPath;
    TableFacts(g, A, look, t);
    var k, u, z := todo[0], mid[..i], mid[i + 1..];
    var rhs := g.productions[k].prod;
    var word, alpha := u + rhs, c.syms[1..];
    if |word| < |alpha| {
      assert mid == u + [mid[i]] + z;
      RuleName(g, A, k);
      var before := Viable(g, A, todo[1..], u, mid[i], z);
      AwaitsRule(g, A, before, u, k);
      var states := ReadOn(g, A, before, u, k, |rhs|);
      assert rhs[..|rhs|] == rhs;
      InsideStack(A, c, word, z, y, states);
      InsideTokens(g, A, c, |word|, z, y);
      AdequateHere(g, A, look, todo[1..], u, k, z, states);
      TwoOffers(g, A, look, t, states[|states| - 1], Item(k, |rhs|), z[0]);
    }
  }

  /** What is on the stack of a sound configuration derives what was read. */
  ghost predicate Spells(g: Grammar, c: Config, r: seq<int>, u: seq<Symbol>) {
    |c.syms| > 0 && Tokens(g, u) && Rightmost(g, c.syms[1..], r, u)
  }

  /** The configuration with the same stack in a run on u + y, having read u. */
  ghost function Elsewhere(c: Config, r: seq<int>, u: seq<Symbol>): Config {
    Config(c.states, c.syms, None, |u|, r)
  }

  lemma ElsewhereIs(g: Grammar, A: Automaton, c: Config, y: seq<Symbol>, todo: seq<int>, r: seq<int>, u: seq<Symbol>)
    requires IsAutomaton(g, A) && Stacked(A, c) && Spells(g, c, r, u) && Completes(g, c, y, todo)
    ensures var d := Elsewhere(c, r, u);
      && Sound(g, A, u + y, d) && Bottomed(d) && Rest(u + y, d) == y && Form(u + y, d) == c.syms[1..] + y
      && Tokens(g, u + y)
  {
    hide Rightmost;
    hide IsAutomaton;
    hide IsPath;
    var d, alpha := Elsewhere(c, r, u), c.syms[1..];
    L.AutomatonGrammar(g, A);
    TokensAreNot(g, y);
    RightmostInContext(g, [], alpha, r, u, y);
    assert [] + alpha + y == alpha + y && [] + u + y == u + y;
    assert (u + y)[|u|..] == y;
    assert Rest(u + y, d) == y;
  }

  /** Such a configuration is on its way to being accepted. */
  lemma ElsewhereTrack(g: Grammar, A: Automaton, look: LRTable.Lookaheads, t: Tables, c: Config, y: seq<Symbol>,
      todo: seq<int>, d: Config, input: seq<Symbol>)
    requires TablesFor(g, A, look, t) && NoConflict(g, A, look) && Adequate(g, A, look) && Stacked(A, c)
    requires Completes(g, c, y, todo) && d.syms == c.syms && Form(input, d) == c.syms[1..] + y
    ensures OnTrack(g, input, d, todo)
  {
    hide TablesFor;
    hide NoConflict;
    hide Adequate;
    hide Rightmost;
    hide Stacked;
    hide Form;
    TableFacts(g, A, look, t);
    var form := c.syms[1..] + y;
    if todo == [] {
      NoReductions(g, g.productions[0].prod, form);
    } else {
      var mid, i := RightmostPeel(g, g.productions[0].prod, todo, form);
      NoneInside(g, A, look, t, c, y, todo, mid, i);
      assert NotPast(g, d, todo, mid, i, form);
    }
  }

  /** Facing the first symbol of y, the row of reductions is shorter than the way to accepting y. */
  lemma RowEnds(g: Grammar, A: Automaton, look: LRTable.Lookaheads, t: Tables, c: Config, n: nat, y: seq<Symbol>,
      todo: seq<int>, r: seq<int>, u: seq<Symbol>)
    requires TablesFor(g, A, look, t) && NoConflict(g, A, look) && Adequate(g, A, look) && Stacked(A, c)
    requires Spells(g, c, r, u) && Completes(g, c, y, todo) && ReducesFor(g, t, Facing(c, LookaheadOf(y)), n)
    ensures n <= |todo| + |y|
  {
    hide TablesFor;
    hide NoConflict;
    hide Adequate;
    hide IsAutomaton;
    hide Stacked;
    hide Sound;
    hide OnTrack;
    hide Next;
    hide RunFor;
    hide Rest;
    hide Form;
    hide ReducesFor;
    hide Spells;
    TableFacts(g, A, look, t);
    var input, d := u + y, Elsewhere(c, r, u);
    ElsewhereIs(g, A, c, y, todo, r, u);
    ElsewhereTrack(g, A, look, t, c, y, todo, d, input);
    if n > |todo| + |y| {
      Arrives(g, A, look, t, input, d, todo, n);
      FetchKeeps(g, A, input, d);
      var f := Fetched(input, d);
      FetchedStays(g, t, input, d);
      RunUnfold(g, t, input, d, n);
      RunUnfold(g, t, input, f, n);
      ReducesAlike(g, t, Facing(c, LookaheadOf(y)), f, n);
      RowRuns(g, t, input, f, n);
      assert false;
    }
  }

  // ----- so it ends facing anything

  ghost predicate CompletesWith(g: Grammar, c: Config, y: seq<Symbol>, todo: seq<int>, a: Symbol) {
    Completes(g, c, y, todo) && LookaheadOf(y) == a
  }

  /** If a can come next, the row facing it has at most bound reductions. */
  ghost predicate RowWithin(g: Grammar, t: Tables, c: Config, a: Symbol, bound: int) {
    forall y, todo, n: nat :: CompletesWith(g, c, y, todo, a) && ReducesFor(g, t, Facing(c, a), n) ==> n <= bound
  }

  lemma RowBound(g: Grammar, A: Automaton, look: LRTable.Lookaheads, t: Tables, c: Config, a: Symbol, r: seq<int>,
      u: seq<Symbol>) returns (bound: nat)
    requires TablesFor(g, A, look, t) && NoConflict(g, A, look) && Adequate(g, A, look) && Stacked(A, c)
    requires Spells(g, c, r, u)
    ensures RowWithin(g, t, c, a, bound)
  {
    hide TablesFor;
    hide NoConflict;
    hide Adequate;
    hide Stacked;
    hide Spells;
    hide Completes;
    hide ReducesFor;
    bound := 0;
    if y, todo :| CompletesWith(g, c, y, todo, a) {
      bound := |todo| + |y|;
      forall n: nat | ReducesFor(g, t, Facing(c, a), n) ensures n <= bound {
        RowEnds(g, A, look, t, c, n, y, todo, r, u);
      }
    }
  }

  lemma {:induction false} RowBounds(g: Grammar, A: Automaton, look: LRTable.Lookaheads, t: Tables, c: Config,
      all: set<Symbol>, r: seq<int>, u: seq<Symbol>) returns (bound: nat)
    requires TablesFor(g, A, look, t) && NoConflict(g, A, look) && Adequate(g, A, look) && Stacked(A, c)
    requires Spells(g, c, r, u)
    ensures forall a :: a in all ==> RowWithin(g, t, c, a, bound)
    decreases |all|
  {
    hide TablesFor;
    hide NoConflict;
    hide Adequate;
    hide Stacked;
    hide Spells;
    hide RowWithin;
    bound := 0;
    if all != {} {
      var a := F.AnyOf(all);
      var rest := RowBounds(g, A, look, t, c, all - {a}, r, u);
      var own := RowBound(g, A, look, t, c, a, r, u);
      bound := rest + own;
      forall b | b in all ensures RowWithin(g, t, c, b, bound) {
        Within(g, t, c, b, if b == a then own else rest, bound);
      }
    }
  }

  lemma Within(g: Grammar, t: Tables, c: Config, a: Symbol, small: int, large: int)
    requires RowWithin(g, t, c, a, small) && small <= large
    ensures RowWithin(g, t, c, a, large)
  {
  }

  lemma {:induction false} LaterStacked(g: Grammar, A: Automaton, look: LRTable.Lookaheads, t: Tables, c: Config,
      n: nat)
    requires TablesFor(g, A, look, t) && Stacked(A, c) && ReducesFor(g, t, c, n)
    ensures Stacked(A, Later(g, t, c, n)) && Later(g, t, c, n).lookahead == c.lookahead
      && Later(g, t, c, n).pos == c.pos
    decreases n
  {
    hide TablesFor;
    hide Stacked;
    hide ReducesNow;
    if n > 0 {
      var k, u := OnceIs(g, A, look, t, c);
      LaterStacked(g, A, look, t, Once(g, t, c), n - 1);
    }
  }

  /**
   * Reductions do not go on for ever, whatever the lookahead: the stack that
   * they give can be completed, and facing what completes it they are the same.
   */
  lemma ReductionsEnd(g: Grammar, A: Automaton, look: LRTable.Lookaheads, t: Tables, c: Config, r: seq<int>,
      u: seq<Symbol>) returns (bound: nat)
    requires TablesFor(g, A, look, t) && NoConflict(g, A, look) && Adequate(g, A, look) && AllProductive(g)
    requires Stacked(A, c) && Spells(g, c, r, u)
    ensures forall n: nat :: ReducesFor(g, t, c, n) ==> n <= bound
  {
    TableFacts(g, A, look, t);
    hide TablesFor;
    hide NoConflict;
    hide Adequate;
    hide AllProductive;
    hide IsAutomaton;
    hide Stacked;
    hide Spells;
    hide ReducesFor;
    var all := g.terminals + {DollarEnd};
    bound := RowBounds(g, A, look, t, c, all, r, u);
    forall n: nat | ReducesFor(g, t, c, n) ensures n <= bound {
      LaterStacked(g, A, look, t, c, n);
      var y, todo := StackCompletes(g, A, Later(g, t, c, n));
      var todo' := SameReductions(g, A, look, t, c, n, y, todo);
      LookaheadKnown(g, y);
      assert CompletesWith(g, c, y, todo', LookaheadOf(y));
      assert RowWithin(g, t, c, LookaheadOf(y), bound);
    }
  }

  lemma LookaheadKnown(g: Grammar, y: seq<Symbol>)
    requires Tokens(g, y)
    ensures LookaheadOf(y) in g.terminals + {DollarEnd}
  {
    assert y != [] ==> y[0] in y;
  }

  // ----- the verdict

  /** A verdict is given, or the next token is read. */
  ghost predicate Advances(input: seq<Symbol>, c: Config, outcome: Outcome, d: Config) {
    outcome == Continue ==> |Rest(input, d)| < |Rest(input, c)|
  }

  lemma RowShorter(g: Grammar, t: Tables, c: Config, bound: nat)
    requires ReducesNow(g, t, c) && forall n: nat :: ReducesFor(g, t, c, n) ==> n <= bound
    ensures bound > 0 && forall n: nat :: ReducesFor(g, t, Once(g, t, c), n) ==> n <= bound - 1
  {
    hide ReducesNow;
    assert ReducesFor(g, t, Once(g, t, c), 0);
    forall n: nat | ReducesFor(g, t, Once(g, t, c), n) ensures n <= bound - 1 {
      assert ReducesFor(g, t, c, n + 1);
    }
  }

  /** A round that makes no reduction gives a verdict or reads a token. */
  lemma OtherRound(g: Grammar, A: Automaton, look: LRTable.Lookaheads, t: Tables, input: seq<Symbol>, c: Config)
    requires TablesFor(g, A, look, t) && Stacked(A, c) && c.lookahead.Some? && !ReducesNow(g, t, c)
    ensures var (outcome, d) := Next(g, t, input, c); Advances(input, c, outcome, d)
  {
    hide TablesFor;
    hide IsAutomaton;
    hide Poppable;
    hide Reduced;
    hide Form;
    TableFacts(g, A, look, t);
    if ActionFor(t, c).Act? && ActionFor(t, c).n > 0 {
      var st, a := c.states[|c.states| - 1], c.lookahead.value;
      var it := RowEntry(g, A, look, t, st, a);
      OfferKinds(g, A, look, st, it, a);
      TerminalsAreNames(g, a);
      ShiftKeepsForm(input, c, a, ActionFor(t, c).n);
    }
  }

  lemma {:induction false} RowLeaves(g: Grammar, A: Automaton, look: LRTable.Lookaheads, t: Tables, input: seq<Symbol>,
      c: Config, bound: nat) returns (rounds: nat)
    requires TablesFor(g, A, look, t) && Stacked(A, c) && c.lookahead.Some?
    requires forall n: nat :: ReducesFor(g, t, c, n) ==> n <= bound
    ensures rounds > 0
    ensures var (outcome, d) := RunFor(g, t, input, c, rounds); Advances(input, c, outcome, d)
    decreases bound
  {
    hide TablesFor;
    hide Stacked;
    hide RunFor;
    hide Next;
    hide ReducesFor;
    hide Poppable;
    hide Reduced;
    hide ActionFor;
    if ReducesNow(g, t, c) {
      var k, u := OnceIs(g, A, look, t, c);
      RowShorter(g, t, c, bound);
      rounds := RowLeaves(g, A, look, t, input, Once(g, t, c), bound - 1);
      rounds := rounds + 1;
      NextIs(g, t, input, c, c);
      RunUnfold(g, t, input, c, rounds);
    } else {
      rounds := 1;
      OtherRound(g, A, look, t, input, c);
      RunUnfold(g, t, input, c, 1);
      RunDone(g, t, input, Next(g, t, input, c).1);
    }
  }

  lemma {:induction false} RunJoin(g: Grammar, t: Tables, input: seq<Symbol>, c: Config, n: nat, m: nat)
    ensures RunFor(g, t, input, c, n).0 == Continue ==>
      RunFor(g, t, input, c, n + m) == RunFor(g, t, input, RunFor(g, t, input, c, n).1, m)
    ensures RunFor(g, t, input, c, n).0 != Continue ==> RunFor(g, t, input, c, n + m) == RunFor(g, t, input, c, n)
    decreases n
  {
    hide RunFor;
    hide Next;
    if n == 0 {
      RunDone(g, t, input, c);
    } else {
      RunUnfold(g, t, input, c, n);
      RunUnfold(g, t, input, c, n + m);
      RunJoin(g, t, input, Next(g, t, input, c).1, n - 1, m);
    }
  }

  lemma NextBottomed(g: Grammar, t: Tables, input: seq<Symbol>, c: Config)
    requires Bottomed(c)
    ensures Bottomed(Next(g, t, input, c).1)
  {
  }

  /** The invariant is kept over any number of rounds. */
  lemma {:induction false} RunKeeps(g: Grammar, A: Automaton, look: LRTable.Lookaheads, t: Tables, input: seq<Symbol>,
      c: Config, n: nat)
    requires TablesFor(g, A, look, t) && Tokens(g, input) && Sound(g, A, input, c) && Bottomed(c)
    ensures var d := RunFor(g, t, input, c, n).1; Sound(g, A, input, d) && Bottomed(d)
    decreases n
  {
    hide TablesFor;
    hide Sound;
    hide Bottomed;
    hide RunFor;
    hide Next;
    if n == 0 {
      RunDone(g, t, input, c);
    } else {
      NextSound(g, A, look, t, input, c);
      NextBottomed(g, t, input, c);
      RunUnfold(g, t, input, c, n);
      if Next(g, t, input, c).0 == Continue {
        RunKeeps(g, A, look, t, input, Next(g, t, input, c).1, n - 1);
      }
    }
  }

  /** Some number of rounds gives a verdict or reads a token. */
  lemma RoundsAdvance(g: Grammar, A: Automaton, look: LRTable.Lookaheads, t: Tables, input: seq<Symbol>, c: Config)
    returns (rounds: nat)
    requires TablesFor(g, A, look, t) && NoConflict(g, A, look) && Adequate(g, A, look) && AllProductive(g)
    requires Tokens(g, input) && Sound(g, A, input, c) && Bottomed(c)
    ensures var (outcome, d) := RunFor(g, t, input, c, rounds); Advances(input, c, outcome, d)
  {
    TableFacts(g, A, look, t);
    FetchKeeps(g, A, input, c);
    hide TablesFor;
    hide NoConflict;
    hide Adequate;
    hide AllProductive;
    hide IsAutomaton;
    hide Rightmost;
    hide ReducesFor;
    hide RunFor;
    hide Next;
    var f := Fetched(input, c);
    FetchedStays(g, t, input, c);
    var u := SpelledBySound(g, A, input, f);
    var bound := ReductionsEnd(g, A, look, t, f, f.reductions, u);
    rounds := RowLeaves(g, A, look, t, input, f, bound);
    RunUnfold(g, t, input, c, rounds);
    RunUnfold(g, t, input, f, rounds);
  }

  lemma SpelledBySound(g: Grammar, A: Automaton, input: seq<Symbol>, c: Config) returns (u: seq<Symbol>)
    requires g.WellFormed() && Tokens(g, input) && Sound(g, A, input, c) && Bottomed(c)
    ensures input == u + Rest(input, c) && Spells(g, c, c.reductions, u)
  {
    hide Rightmost;
    hide Rest;
    FormParts(input, c);
    RestIsTokens(g, A, input, c);
    u := DeriveLeft(g, c.syms[1..], Rest(input, c), c.reductions, input);
    assert forall x :: x in u ==> x in input;
  }

  lemma {:induction false} Halts(g: Grammar, A: Automaton, look: LRTable.Lookaheads, t: Tables, input: seq<Symbol>,
      c: Config) returns (rounds: nat)
    requires TablesFor(g, A, look, t) && NoConflict(g, A, look) && Adequate(g, A, look) && AllProductive(g)
    requires Tokens(g, input) && Sound(g, A, input, c) && Bottomed(c)
    ensures RunFor(g, t, input, c, rounds).0 != Continue
    decreases |Rest(input, c)|
  {
    hide TablesFor;
    hide NoConflict;
    hide Adequate;
    hide AllProductive;
    hide Sound;
    hide Bottomed;
    hide RunFor;
    hide Rest;
    rounds := RoundsAdvance(g, A, look, t, input, c);
    var (outcome, d) := RunFor(g, t, input, c, rounds);
    if outcome == Continue {
      RunKeeps(g, A, look, t, input, c, rounds);
      var more := Halts(g, A, look, t, input, d);
      RunJoin(g, t, input, c, rounds, more);
      rounds := rounds + more;
    }
  }

  /** From so many rounds on, the verdict is given. */
  ghost predicate Gives(g: Grammar, t: Tables, input: seq<Symbol>, rounds: nat, verdict: Outcome) {
    forall n: nat :: n >= rounds ==> RunFor(g, t, input, Initial(), n).0 == verdict
  }

  ghost function Verdict(g: Grammar, input: seq<Symbol>): Outcome
    requires g.productions != []
  {
    if g.Derives(g.productions[0].prod, input) then Accepted else Rejected
  }

  lemma GivenOnce(g: Grammar, t: Tables, input: seq<Symbol>, rounds: nat)
    requires RunFor(g, t, input, Initial(), rounds).0 != Continue
    ensures Gives(g, t, input, rounds, RunFor(g, t, input, Initial(), rounds).0)
  {
    forall n: nat | n >= rounds
      ensures RunFor(g, t, input, Initial(), n).0 == RunFor(g, t, input, Initial(), rounds).0
    {
      RunJoin(g, t, input, Initial(), rounds, n - rounds);
    }
  }

  /**
   * Tables without conflicts, built for adequate lookaheads: on every input the
   * parser comes to a verdict, and accepts just the sentences of the grammar.
   */
  lemma Decides(g: Grammar, A: Automaton, look: LRTable.Lookaheads, t: Tables, input: seq<Symbol>)
    returns (rounds: nat)
    requires TablesFor(g, A, look, t) && NoConflict(g, A, look) && Adequate(g, A, look) && AllProductive(g)
    requires Tokens(g, input)
    ensures g.productions != [] && Gives(g, t, input, rounds, Verdict(g, input))
  {
    hide TablesFor;
    hide NoConflict;
    hide Adequate;
    hide AllProductive;
    hide RunFor;
    hide Gives;
    InitialSound(g, A, input);
    AcceptsExactly(g, A, look, t, input);
    rounds := Halts(g, A, look, t, input, Initial());
    GivenOnce(g, t, input, rounds);
    if g.Derives(g.productions[0].prod, input) {
      var enough: nat :| RunFor(g, t, input, Initial(), enough).0 == Accepted;
      GivenOnce(g, t, input, enough);
      SameVerdict(g, t, input, rounds, RunFor(g, t, input, Initial(), rounds).0, enough, Accepted);
    }
  }

  lemma SameVerdict(g: Grammar, t: Tables, input: seq<Symbol>, m: nat, v: Outcome, n: nat, w: Outcome)
    requires Gives(g, t, input, m, v) && Gives(g, t, input, n, w)
    ensures v == w
  {
    assert RunFor(g, t, input, Initial(), m + n).0 == v;
    assert RunFor(g, t, input, Initial(), m + n).0 == w;
  }

  /** The same for the lookaheads that the generator computes. */
  lemma LalrDecides(g: Grammar, A: Automaton, s: LA.Sets, m: map<(int, Item), seq<Symbol>>, t: Tables,
      input: seq<Symbol>) returns (rounds: nat)
    requires LA.Lalr(g, A, s, m) && TablesFor(g, A, L.LookOf(m), t) && NoConflict(g, A, L.LookOf(m))
    requires AllProductive(g) && Tokens(g, input)
    ensures g.productions != [] && Gives(g, t, input, rounds, Verdict(g, input))
  {
    TableFacts(g, A, L.LookOf(m), t);
    hide TablesFor;
    hide IsAutomaton;
    hide NoConflict;
    hide AllProductive;
    hide Adequate;
    hide LA.Lalr;
    hide Gives;
    L.LalrAdequate(g, A, s, m);
    rounds := Decides(g, A, L.LookOf(m), t, input);
  }

  /** The parser's loop without a limit: it ends, and its verdict is whether the tokens are a sentence. */
  method Recognize(g: Grammar, t: Tables, input: seq<Symbol>, ghost A: Automaton, ghost look: LRTable.Lookaheads)
    returns (outcome: Outcome, ghost reductions: seq<int>)
    requires TablesFor(g, A, look, t) && NoConflict(g, A, look) && Adequate(g, A, look) && AllProductive(g)
    requires Tokens(g, input)
    ensures g.productions != [] && outcome == Verdict(g, input)
    ensures outcome == Accepted ==> Rightmost(g, g.productions[0].prod, reductions, input)
  {
    hide TablesFor;
    hide NoConflict;
    hide Adequate;
    hide AllProductive;
    hide Rightmost;
    hide RunFor;
    hide Next;
    hide Sound;
    ghost var left := Decides(g, A, look, t, input);
    ghost var result := RunFor(g, t, input, Initial(), left);
    assert result.0 == Verdict(g, input);
    var parser := new Parser(g, t, input, A, look);
    outcome := Continue;
    while outcome == Continue
      invariant parser.Valid()
      invariant outcome == Continue ==> RunFor(g, t, input, parser.Now(), left) == result
      invariant outcome != Continue ==> outcome == result.0
      invariant outcome == Accepted ==> Rightmost(g, g.productions[0].prod, parser.reductions, input)
      decreases if outcome == Continue then left + 1 else 0
    {
      RunDone(g, t, input, parser.Now());
      RunUnfold(g, t, input, parser.Now(), left);
      outcome := parser.Step();
      left := left - 1;
    }
    reductions := parser.reductions;
  }

  // ----- errors are noticed at once

  /** What is on the stack is the beginning of a sentence, and so is what it was made of. */
  lemma ReadIsPrefix(g: Grammar, A: Automaton, input: seq<Symbol>, c: Config)
    returns (read: seq<Symbol>, y: seq<Symbol>)
    requires IsAutomaton(g, A) && AllProductive(g) && Tokens(g, input) && Sound(g, A, input, c) && Bottomed(c)
    ensures input == read + Rest(input, c) && Tokens(g, y)
    ensures |g.productions| > 0 && g.Derives(g.productions[0].prod, read + y)
  {
    hide IsAutomaton;
    hide AllProductive;
    hide Rightmost;
    hide Rest;
    L.AutomatonGrammar(g, A);
    read := SpelledBySound(g, A, input, c);
    var alpha, todo := c.syms[1..], [];
    y, todo := StackCompletes(g, A, c);
    TokensAreNot(g, y);
    RightmostInContext(g, [], alpha, c.reductions, read, y);
    assert [] + alpha + y == alpha + y && [] + read + y == read + y;
    RightmostJoin(g, g.productions[0].prod, todo, alpha + y, c.reductions, read + y);
    RightmostDerives(g, g.productions[0].prod, c.reductions + todo, read + y);
  }

  /**
   * Whatever the lookaheads, and however conflicts were resolved: what the
   * parser has read and put on its stack is the beginning of a sentence. A token
   * that no sentence has in its place is never shifted.
   */
  lemma ReadsOnlyPrefixes(g: Grammar, A: Automaton, look: LRTable.Lookaheads, t: Tables, input: seq<Symbol>,
      rounds: nat) returns (read: seq<Symbol>, y: seq<Symbol>)
    requires TablesFor(g, A, look, t) && AllProductive(g) && Tokens(g, input)
    ensures input == read + Rest(input, RunFor(g, t, input, Initial(), rounds).1) && Tokens(g, y)
    ensures |g.productions| > 0 && g.Derives(g.productions[0].prod, read + y)
  {
    TableFacts(g, A, look, t);
    InitialSound(g, A, input);
    hide TablesFor;
    hide IsAutomaton;
    hide AllProductive;
    hide Sound;
    hide Rest;
    hide RunFor;
    RunKeeps(g, A, look, t, input, Initial(), rounds);
    read, y := ReadIsPrefix(g, A, input, RunFor(g, t, input, Initial(), rounds).1);
  }

  // ----- the generator's own check

  lemma {:induction false} DerivesKnown(g: Grammar, a: seq<Symbol>, w: seq<Symbol>, n: nat)
    requires g.WellFormed() && g.Knows(a) && g.DerivesIn(a, w, n)
    ensures g.Knows(w)
    decreases n
  {
    if n > 0 {
      var c := FirstStep(g, a, w, n);
      First.StepKnown(g, a, c);
      DerivesKnown(g, c, w, n - 1);
    } else {
      NoStep(g, a, w);
    }
  }

  /** The generator finds no nonterminal that recurs for ever just where each derives a string of terminals. */
  lemma NoneInfinite(g: Grammar, infinite: seq<Symbol>)
    requires g.WellFormed() && g.AllDefined()
    requires forall n :: n in infinite <==>
      n in g.nonterminals && g.Prodnames(n) != [] && !Productive.Generates(g, g.terminals + {DollarEnd}, [n])
    ensures infinite == [] <==> AllProductive(g)
  {
    forall n | n in g.nonterminals
      ensures Productive.Generates(g, g.terminals, [n]) <==> Productive.Generates(g, g.terminals + {DollarEnd}, [n])
    {
      EndNotGenerated(g, n);
    }
    assert infinite != [] ==> infinite[0] in infinite;
  }

  lemma EndNotGenerated(g: Grammar, n: Symbol)
    requires g.WellFormed() && n in g.nonterminals
    ensures Productive.Generates(g, g.terminals, [n]) <==> Productive.Generates(g, g.terminals + {DollarEnd}, [n])
  {
    forall w | g.Derives([n], w)
      ensures Productive.Over(g.terminals, w) <==> Productive.Over(g.terminals + {DollarEnd}, w)
    {
      var k: nat :| g.DerivesIn([n], w, k);
      DerivesKnown(g, [n], w, k);
    }
  }
}
