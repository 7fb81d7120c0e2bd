/** With adequate lookaheads and no conflicts the engine accepts everything the grammar derives. */
module LRComplete {
  import opened Options
  import opened Grammar
  import opened LR0
  import opened LRTable
  import opened LRParser

  // ----- rightmost derivations

  lemma Prepend(g: Grammar, a: seq<Symbol>, c: seq<Symbol>, b: seq<Symbol>, n: nat)
    requires g.Step(a, c) && g.DerivesIn(c, b, n)
    ensures g.DerivesIn(a, b, n + 1)
  {
  }

  lemma NoStep(g: Grammar, a: seq<Symbol>, b: seq<Symbol>)
    ensures g.DerivesIn(a, b, 0) <==> a == b
  {
  }

  lemma FirstStep(g: Grammar, a: seq<Symbol>, b: seq<Symbol>, n: nat) returns (c: seq<Symbol>)
    requires n > 0 && g.DerivesIn(a, b, n)
    ensures g.Step(a, c) && g.DerivesIn(c, b, n - 1)
  {
    c :| g.Step(a, c) && g.DerivesIn(c, b, n - 1);
  }

  lemma CutLeft(a: seq<Symbol>, b: seq<Symbol>, i: int)
    requires 0 <= i < |a|
    ensures (a + b)[..i] == a[..i] && (a + b)[i + 1..] == a[i + 1..] + b && (a + b)[i] == a[i]
  {
  }

  lemma CutRight(a: seq<Symbol>, b: seq<Symbol>, j: int)
    requires 0 <= j < |b|
    ensures (a + b)[..|a| + j] == a + b[..j] && (a + b)[|a| + j + 1..] == b[j + 1..] && (a + b)[|a| + j] == b[j]
  {
  }

  lemma Regroup(x: seq<Symbol>, y: seq<Symbol>, z: seq<Symbol>, b: seq<Symbol>)
    ensures x + y + (z + b) == (x + y + z) + b && (b + x) + y + z == b + (x + y + z)
  {
  }

  lemma StepSplit(g: Grammar, a: seq<Symbol>, b: seq<Symbol>, c: seq<Symbol>) returns (left: bool, d: seq<Symbol>)
    requires g.Step(a + b, c)
    ensures if left then c == d + b && g.Step(a, d) else c == a + d && g.Step(b, d)
  {
    hide Grammar.IsRule;
    var i, p :| g.StepAt(a + b, c, i, p);
    left := i < |a|;
    if left {
      CutLeft(a, b, i);
      d := a[..i] + p.prod + a[i + 1..];
      Regroup(a[..i], p.prod, a[i + 1..], b);
      StepIs(g, a, d, i, p);
    } else {
      var j := i - |a|;
      CutRight(a, b, j);
      d := b[..j] + p.prod + b[j + 1..];
      Regroup(b[..j], p.prod, b[j + 1..], a);
      StepIs(g, b, d, j, p);
    }
  }

  lemma StepIs(g: Grammar, a: seq<Symbol>, d: seq<Symbol>, i: int, p: Production)
    requires g.StepAt(a, d, i, p)
    ensures g.Step(a, d)
  {
  }

  /** A derivation from two forms side by side is a derivation from each. */
  lemma {:induction false} DerivesSplit(g: Grammar, a: seq<Symbol>, b: seq<Symbol>, w: seq<Symbol>, n: nat)
    returns (a': seq<Symbol>, b': seq<Symbol>, m: nat)
    requires g.DerivesIn(a + b, w, n)
    ensures m <= n && w == a' + b' && g.DerivesIn(a, a', m) && g.DerivesIn(b, b', n - m)
    decreases n
  {
    hide Grammar.DerivesIn;
    hide Grammar.Step;
    if n == 0 {
      a', b', m := a, b, 0;
      NoStep(g, a + b, w);
      NoStep(g, a, a);
      NoStep(g, b, b);
    } else {
      var c := FirstStep(g, a + b, w, n);
      var left, d := StepSplit(g, a, b, c);
      if left {
        a', b', m := DerivesSplit(g, d, b, w, n - 1);
        Prepend(g, a, d, a', m);
        m := m + 1;
      } else {
        a', b', m := DerivesSplit(g, a, d, w, n - 1);
        Prepend(g, b, d, b', n - 1 - m);
      }
    }
  }

  /** Without a nonterminal there is nothing to rewrite. */
  lemma NothingToRewrite(g: Grammar, v: seq<Symbol>, c: seq<Symbol>)
    requires g.WellFormed() && NoNonterminal(g, v)
    ensures !g.Step(v, c)
  {
    forall i, p | 0 <= i < |v| && g.IsRule(p) ensures v[i] != p.name {
      assert v[i] in v && p.name in g.nonterminals;
    }
  }

  /** The rightmost nonterminal of a form that has one. */
  lemma {:induction false} LastNonterminal(g: Grammar, form: seq<Symbol>) returns (i: int)
    requires !NoNonterminal(g, form)
    ensures 0 <= i < |form| && form[i] in g.nonterminals && NoNonterminal(g, form[i + 1..])
  {
    i := |form| - 1;
    if form[i] !in g.nonterminals {
      forall s | s in form ensures s in form[..i] || s !in g.nonterminals {
      }
      i := LastNonterminal(g, form[..i]);
      assert form[i + 1..] == form[..|form| - 1][i + 1..] + [form[|form| - 1]];
    }
  }

  /** A nonterminal that derives a sentence does so through one of its rules. */
  lemma ByRule(g: Grammar, x: Symbol, b: seq<Symbol>, n: nat) returns (k: int)
    requires g.WellFormed() && x in g.nonterminals && NoNonterminal(g, b) && g.DerivesIn([x], b, n)
    ensures n > 0 && 0 < k < |g.productions| && g.productions[k].name == x
      && g.DerivesIn(g.productions[k].prod, b, n - 1)
  {
    assert x in [x];
    var c :| g.Step([x], c) && g.DerivesIn(c, b, n - 1);
    var i, p :| g.StepAt([x], c, i, p);
    assert c == p.prod;
    k :| 0 < k < |g.productions| && g.productions[k] == p;
  }

  lemma StaysPut(g: Grammar, v: seq<Symbol>, v': seq<Symbol>, n: nat)
    requires g.WellFormed() && NoNonterminal(g, v) && g.DerivesIn(v, v', n)
    ensures n == 0 && v' == v
  {
    if n > 0 {
      var c := FirstStep(g, v, v', n);
      NothingToRewrite(g, v, c);
      assert false;
    }
  }

  lemma Reassemble(g: Grammar, u: seq<Symbol>, u': seq<Symbol>, r: seq<Symbol>, b: seq<Symbol>, v: seq<Symbol>, m: nat,
      l: nat)
    requires g.DerivesIn(u, u', m) && g.DerivesIn(r, b, l)
    ensures g.DerivesIn(u + r + v, u' + (b + v), m + l)
  {
    hide Grammar.DerivesIn;
    g.DerivesInContext([], u, u', r + v, m);
    g.DerivesInContext(u', r, b, v, l);
    assert [] + u + (r + v) == u + r + v;
    assert [] + u' + (r + v) == u' + r + v;
    assert u' + b + v == u' + (b + v);
    g.DerivesInJoin(u + r + v, u' + r + v, u' + (b + v), m, l);
  }

  lemma PartsHaveNone(g: Grammar, a: seq<Symbol>, b: seq<Symbol>)
    ensures NoNonterminal(g, a + b) <==> NoNonterminal(g, a) && NoNonterminal(g, b)
  {
    assert forall s :: s in a + b <==> s in a || s in b;
  }

  /** What the parts before, at and after the rightmost nonterminal derive. */
  lemma SplitAtLast(g: Grammar, u: seq<Symbol>, x: Symbol, v: seq<Symbol>, w: seq<Symbol>, n: nat)
    returns (u': seq<Symbol>, b: seq<Symbol>, m: nat)
    requires g.WellFormed() && g.DerivesIn(u + ([x] + v), w, n) && NoNonterminal(g, w) && NoNonterminal(g, v)
    ensures m <= n && w == u' + (b + v) && g.DerivesIn(u, u', m) && g.DerivesIn([x], b, n - m) && NoNonterminal(g, b)
  {
    hide Grammar.DerivesIn;
    var w', v', l;
    u', w', m := DerivesSplit(g, u, [x] + v, w, n);
    b, v', l := DerivesSplit(g, [x], v, w', n - m);
    StaysPut(g, v, v', n - m - l);
    PartsHaveNone(g, u', w');
    PartsHaveNone(g, b, v);
  }

  /** The derivation of a sentence can start with the rightmost nonterminal. */
  lemma RightmostFirst(g: Grammar, form: seq<Symbol>, w: seq<Symbol>, n: nat) returns (next: seq<Symbol>, k: int)
    requires g.WellFormed() && n > 0 && g.DerivesIn(form, w, n) && NoNonterminal(g, w)
    ensures RightmostStep(g, form, next, k) && g.DerivesIn(next, w, n - 1)
  {
    hide Grammar.DerivesIn;
    hide NoNonterminal;
    hide Grammar.WellFormed;
    if NoNonterminal(g, form) {
      StaysPut(g, form, w, n);
      assert false;
    }
    var i := LastNonterminal(g, form);
    var x, u, v := form[i], form[..i], form[i + 1..];
    assert form == u + ([x] + v);
    var u', b, m := SplitAtLast(g, u, x, v, w, n);
    k := ByRule(g, x, b, n - m);
    Reassemble(g, u, u', g.productions[k].prod, b, v, m, n - m - 1);
    next := u + g.productions[k].prod + v;
    assert RightmostAt(g, form, next, k, i);
  }

  /** Every sentence has a rightmost derivation. */
  lemma {:induction false} RightmostExists(g: Grammar, form: seq<Symbol>, w: seq<Symbol>, n: nat)
    returns (reductions: seq<int>)
    requires g.WellFormed() && g.DerivesIn(form, w, n) && NoNonterminal(g, w)
    ensures Rightmost(g, form, reductions, w)
    decreases n
  {
    if n == 0 {
      reductions := [];
    } else {
      var next, k := RightmostFirst(g, form, w, n);
      reductions := RightmostExists(g, next, w, n - 1);
      RightmostAppends(g, form, next, k, reductions, w);
      reductions := reductions + [k];
    }
  }

  /** The last step of a rightmost derivation, the first reduction. */
  lemma {:induction false} RightmostPeel(g: Grammar, form: seq<Symbol>, reductions: seq<int>, w: seq<Symbol>)
    returns (mid: seq<Symbol>, i: int)
    requires Rightmost(g, form, reductions, w) && reductions != []
    ensures RightmostAt(g, mid, w, reductions[0], i) && Rightmost(g, form, reductions[1..], mid)
    decreases |reductions|
  {
    hide RightmostAt;
    var last := |reductions| - 1;
    var next :| RightmostStep(g, form, next, reductions[last]) && Rightmost(g, next, reductions[..last], w);
    if last == 0 {
      mid := form;
      i :| RightmostAt(g, form, next, reductions[0], i);
      assert reductions[..last] == [] && next == w;
      assert reductions[1..] == [];
    } else {
      mid, i := RightmostPeel(g, next, reductions[..last], w);
      RightmostAppends(g, form, next, reductions[last], reductions[..last][1..], mid);
      assert reductions[..last][1..] + [reductions[last]] == reductions[1..];
    }
  }

  // ----- viable prefixes

  /** The symbol stack above which states were reached. */
  function Stack(alpha: seq<Symbol>): seq<Symbol> {
    [DollarEnd] + alpha
  }

  lemma {:induction false} PathUnique(A: Automaton, s1: seq<int>, s2: seq<int>, syms: seq<Symbol>)
    requires IsPath(A, s1, syms) && IsPath(A, s2, syms)
    ensures s1 == s2
    decreases |syms|
  {
    if |syms| > 1 {
      var n := |syms| - 1;
      PathPrefix(A, s1, syms, n);
      PathPrefix(A, s2, syms, n);
      PathUnique(A, s1[..n], s2[..n], syms[..n]);
      assert s1 == s1[..n] + [s1[n]] && s2 == s2[..n] + [s2[n]];
      assert s1[n - 1] == s1[..n][n - 1] == s2[..n][n - 1] == s2[n - 1];
    }
  }

  /** Item it is in the state that states lead to. */
  ghost predicate TopHas(g: Grammar, A: Automaton, states: seq<int>, it: Item) {
    states != [] && 0 <= states[|states| - 1] < |A.C| && it in A.C[states[|states| - 1]]
  }

  /** The states that a path leads to are closed. */
  lemma TopClosed(g: Grammar, A: Automaton, states: seq<int>, syms: seq<Symbol>, it: Item, k: nat)
    requires IsAutomaton(g, A) && IsPath(A, states, syms) && TopHas(g, A, states, it)
    requires 0 < k < |g.productions| && Before(g, it, g.productions[k].name)
    ensures TopHas(g, A, states, Item(k, 0))
  {
    var n := |states| - 1;
    if n > 0 {
      assert Edge(g, A, (states[n - 1], syms[n]));
    }
    assert ClosedItems(g, A.C[states[n]]);
    assert k in After(g, it);
  }

  /** The first state is closed. */
  lemma StartItem(g: Grammar, A: Automaton, it: Item, k: int)
    requires IsAutomaton(g, A) && it in A.C[0] && 0 < k < |g.productions| && Before(g, it, g.productions[k].name)
    ensures Item(k, 0) in A.C[0]
  {
    TopClosed(g, A, [0], [DollarEnd], it, k);
  }

  /** From an initial item its whole right-hand side can be read. */
  lemma {:induction false} ReadOn(g: Grammar, A: Automaton, states: seq<int>, alpha: seq<Symbol>, k: nat, d: nat)
    returns (states': seq<int>)
    requires IsAutomaton(g, A) && IsPath(A, states, Stack(alpha)) && TopHas(g, A, states, Item(k, 0))
    requires k < |g.productions| && d <= |g.productions[k].prod|
    ensures IsPath(A, states', Stack(alpha + g.productions[k].prod[..d])) && TopHas(g, A, states', Item(k, d))
    ensures states <= states'
  {
    hide IsAutomaton;
    var rhs := g.productions[k].prod;
    if d == 0 {
      states' := states;
      assert alpha + rhs[..0] == alpha;
    } else {
      var before := ReadOn(g, A, states, alpha, k, d - 1);
      var st, x := before[|before| - 1], rhs[d - 1];
      MovesOn(g, A, st, Item(k, d - 1), x);
      PathExtends(A, before, Stack(alpha + rhs[..d - 1]), x, A.delta[(st, x)]);
      states' := before + [A.delta[(st, x)]];
      assert Stack(alpha + rhs[..d - 1]) + [x] == Stack(alpha + rhs[..d]);
    }
  }

  /** The automaton reads alpha, and x may come next. */
  ghost predicate Awaits(A: Automaton, states: seq<int>, alpha: seq<Symbol>, x: Symbol) {
    IsPath(A, states, Stack(alpha)) && (states[|states| - 1], x) in A.delta
  }

  /** A form in which the rightmost nonterminal is x, after alpha and before v. */
  ghost predicate Derived(g: Grammar, todo: seq<int>, alpha: seq<Symbol>, x: Symbol, v: seq<Symbol>) {
    |g.productions| > 0 && Rightmost(g, g.productions[0].prod, todo, alpha + [x] + v) && NoNonterminal(g, v)
      && x in g.nonterminals
  }

  lemma StartAwaits(g: Grammar, A: Automaton, x: Symbol)
    requires IsAutomaton(g, A) && g.productions[0].prod == [x]
    ensures Awaits(A, [0], [], x)
  {
    var it := Item(0, 0);
    assert A.C[0][0] == it;
    MovesOn(g, A, 0, it, x);
  }

  lemma AwaitsRule(g: Grammar, A: Automaton, states: seq<int>, alpha: seq<Symbol>, k: nat)
    requires IsAutomaton(g, A) && 0 < k < |g.productions| && Awaits(A, states, alpha, g.productions[k].name)
    ensures TopHas(g, A, states, Item(k, 0))
  {
    hide IsAutomaton;
    var it := WaitsFor(g, A, states[|states| - 1], g.productions[k].name);
    TopClosed(g, A, states, Stack(alpha), it, k);
  }

  /** The position of the rightmost nonterminal x in a form that a step just gave: in the new part, or before it. */
  lemma WhereIs(g: Grammar, alpha: seq<Symbol>, x: Symbol, v: seq<Symbol>, u: seq<Symbol>, r: seq<Symbol>,
      z: seq<Symbol>)
    requires alpha + [x] + v == u + r + z && x in g.nonterminals && NoNonterminal(g, z)
    ensures |alpha| < |u| + |r|
    ensures |alpha| < |u| ==> alpha == u[..|alpha|] && u[|alpha|] == x && v == u[|alpha| + 1..] + r + z
    ensures |alpha| >= |u| ==> var d := |alpha| - |u|; alpha == u + r[..d] && r[d] == x && v == r[d + 1..] + z
  {
    var f := alpha + [x] + v;
    assert f[|alpha|] == x && f[..|alpha|] == alpha && f[|alpha| + 1..] == v;
    assert forall j :: 0 <= j < |z| ==> z[j] != x && f[|u| + |r| + j] == z[j];
  }

  /** In a rightmost derivation the automaton reads what stands before the rightmost nonterminal, and waits for it. */
  lemma {:induction false} Viable(g: Grammar, A: Automaton, todo: seq<int>, alpha: seq<Symbol>, x: Symbol,
      v: seq<Symbol>)
    returns (states: seq<int>)
    requires IsAutomaton(g, A) && Derived(g, todo, alpha, x, v)
    ensures Awaits(A, states, alpha, x)
    decreases |todo|
  {
    hide IsAutomaton;
    hide IsPath;
    hide Rightmost;
    var form := alpha + [x] + v;
    if todo == [] {
      StartForm(g, A, alpha, x, v);
      StartAwaits(g, A, x);
      states := [0];
    } else {
      var mid, i := RightmostPeel(g, g.productions[0].prod, todo, form);
      var k, u, z := todo[0], mid[..i], mid[i + 1..];
      var rhs := g.productions[k].prod;
      assert mid == u + [mid[i]] + z;
      WhereIs(g, alpha, x, v, u, rhs, z);
      RuleName(g, A, k);
      var before := Viable(g, A, todo[1..], u, mid[i], z);
      if |alpha| < |u| {
        states := AwaitsBefore(A, before, u, mid[i], |alpha|);
      } else {
        AwaitsRule(g, A, before, u, k);
        var d := |alpha| - |u|;
        states := ReadOn(g, A, before, u, k, d);
        MovesOn(g, A, states[|states| - 1], Item(k, d), x);
      }
    }
  }

  lemma RuleName(g: Grammar, A: Automaton, k: int)
    requires IsAutomaton(g, A) && 0 < k < |g.productions|
    ensures g.productions[k].name in g.nonterminals
  {
  }

  lemma StartForm(g: Grammar, A: Automaton, alpha: seq<Symbol>, x: Symbol, v: seq<Symbol>)
    requires IsAutomaton(g, A) && Rightmost(g, g.productions[0].prod, [], alpha + [x] + v)
    ensures alpha == [] && v == [] && g.productions[0].prod == [x]
  {
    var f := alpha + [x] + v;
    assert |f| == 1 && f[|alpha|] == x;
  }

  /** What was read on the way to u was awaited there. */
  lemma AwaitsBefore(A: Automaton, states: seq<int>, u: seq<Symbol>, y: Symbol, n: nat) returns (prefix: seq<int>)
    requires Awaits(A, states, u, y) && n < |u|
    ensures Awaits(A, prefix, u[..n], u[n])
  {
    prefix := states[..n + 1];
    assert Stack(u)[..n + 1] == Stack(u[..n]);
    assert Stack(u)[n + 1] == u[n];
  }

  // ----- the engine on the way back through a derivation

  function LookaheadOf(v: seq<Symbol>): Symbol {
    if v == [] then DollarEnd else v[0]
  }

  /** The lookaheads of a rule are adequate where they have whatever can follow when it is time to reduce by it. */
  ghost predicate AdequateAt(g: Grammar, look: Lookaheads, todo: seq<int>, alpha: seq<Symbol>, k: int, v: seq<Symbol>,
      states: seq<int>, A: Automaton)
    requires 0 < k < |g.productions|
  {
    Derived(g, todo, alpha, g.productions[k].name, v) && Tokens(g, v) && IsPath(A, states,
      Stack(alpha + g.productions[k].prod))
    ==> LookaheadOf(v) in look(states[|states| - 1], Item(k, |g.productions[k].prod|))
  }

  ghost predicate Adequate(g: Grammar, A: Automaton, look: Lookaheads) {
    forall todo, alpha, k, v, states :: 0 < k < |g.productions| ==> AdequateAt(g, look, todo, alpha, k, v, states, A)
  }

  /** No two items of a state offer different actions for the same symbol. */
  ghost predicate NoConflict(g: Grammar, A: Automaton, look: Lookaheads) {
    forall st, it, a, n :: 0 <= st < |A.C| && Proposed(g, A, look, st, it, a, n) ==> OnlyOffer(g, A, look, st, a, n)
  }

  /** The parser has not gone past the end of what the next reduction replaces. */
  ghost predicate NotPast(g: Grammar, c: Config, todo: seq<int>, mid: seq<Symbol>, i: int, form: seq<Symbol>) {
    && todo != [] && |g.productions| > 0 && RightmostAt(g, mid, form, todo[0], i)
    && Rightmost(g, g.productions[0].prod, todo[1..], mid)
    && |c.syms| <= i + |g.productions[todo[0]].prod| + 1
  }

  /** The reductions in todo lead from the current form back to the start symbol. */
  ghost predicate OnTrack(g: Grammar, input: seq<Symbol>, c: Config, todo: seq<int>) {
    if todo == [] then |g.productions| > 0 && Form(input, c) == g.productions[0].prod
    else exists mid, i :: NotPast(g, c, todo, mid, i, Form(input, c))
  }

  lemma TrackStarts(g: Grammar, input: seq<Symbol>, reductions: seq<int>)
    requires g.WellFormed() && Rightmost(g, g.productions[0].prod, reductions, input)
    ensures OnTrack(g, input, Initial(), reductions)
  {
    assert Form(input, Initial()) == input;
    TrackGoesOn(g, input, Initial(), reductions, 0);
  }

  /** A nonterminal before the part that the last step rewrote, or in it. */
  lemma NotBehind(g: Grammar, mid: seq<Symbol>, form: seq<Symbol>, p: int, j: int, i: int)
    requires RightmostAt(g, mid, form, p, j) && 0 <= i < |form| && form[i] in g.nonterminals
    ensures i < j + |g.productions[p].prod|
  {
    var z, end := mid[j + 1..], j + |g.productions[p].prod|;
    assert forall n :: 0 <= n < |z| ==> z[n] == form[end + n] && z[n] !in g.nonterminals;
  }

  /** A configuration whose stack ends with the nonterminal just put there, at i, is on track. */
  lemma TrackGoesOn(g: Grammar, input: seq<Symbol>, c: Config, todo: seq<int>, i: int)
    requires g.WellFormed() && Rightmost(g, g.productions[0].prod, todo, Form(input, c))
    requires |c.syms| == 1 || (|c.syms| == i + 2 && 0 <= i < |Form(input, c)| && Form(input, c)[i] in g.nonterminals)
    ensures OnTrack(g, input, c, todo)
  {
    hide Form;
    if todo != [] {
      hide Rightmost;
      var form := Form(input, c);
      var mid, j := RightmostPeel(g, g.productions[0].prod, todo, form);
      if |c.syms| != 1 {
        NotBehind(g, mid, form, todo[0], j, i);
      }
      assert NotPast(g, c, todo, mid, j, form);
    }
  }

  lemma EntryIs(g: Grammar, A: Automaton, look: Lookaheads, t: Tables, st: int, it: Item, a: Symbol)
    requires TablesFor(g, A, look, t) && NoConflict(g, A, look) && 0 <= st < |A.C|
    requires it in A.C[st] && Proposes(g, look, st, it, a)
    ensures |t.action| == |A.C| && a in t.action[st] && t.action[st][a] == Act(Offer(g, A, st, it, a))
  {
    hide Proposes;
    hide Offer;
    var n := Offer(g, A, st, it, a);
    assert Proposed(g, A, look, st, it, a, n);
    assert OnlyOffer(g, A, look, st, a, n);
    assert ActionRow(g, A, look, st, t.action[st]);
  }

  /** Looking at the next symbol changes nothing but the lookahead. */
  lemma FetchKeeps(g: Grammar, A: Automaton, input: seq<Symbol>, c: Config)
    requires g.WellFormed() && Tokens(g, input) && Sound(g, A, input, c)
    ensures var d := Fetched(input, c);
      && Sound(g, A, input, d) && Form(input, d) == Form(input, c) && Rest(input, d) == Rest(input, c)
      && d.syms == c.syms && d.states == c.states && d.reductions == c.reductions
      && d.lookahead == Some(LookaheadOf(Rest(input, c))) && Tokens(g, Rest(input, c))
  {
    hide Rightmost;
    if c.lookahead.None? {
      FetchSound(g, A, input, c);
      if c.pos < |input| {
        assert input[c.pos] in input;
        assert input[c.pos..] == [input[c.pos]] + input[c.pos + 1..];
      }
      assert Rest(input, Fetched(input, c)) == Rest(input, c);
    }
    assert forall s :: s in input[c.pos..] ==> s in input;
  }

  /** Everything the engine starts a round with. */
  ghost predicate Ready(g: Grammar, A: Automaton, look: Lookaheads, t: Tables, input: seq<Symbol>, c: Config) {
    && TablesFor(g, A, look, t) && NoConflict(g, A, look) && Tokens(g, input) && Sound(g, A, input, c)
    && c.lookahead == Some(LookaheadOf(Rest(input, c)))
  }

  lemma ReadyFacts(g: Grammar, A: Automaton, look: Lookaheads, t: Tables, input: seq<Symbol>, c: Config)
    requires Ready(g, A, look, t, input, c)
    ensures IsAutomaton(g, A) && g.WellFormed() && IsPath(A, c.states, c.syms) && |t.action| == |A.C|
    ensures |c.syms| == |c.states| > 0
    ensures 0 <= c.states[|c.states| - 1] < |A.C|
    ensures c.syms[0] == DollarEnd ==> c.syms == Stack(c.syms[1..])
  {
    hide Rightmost;
    PathStates(g, A, c.states, c.syms, |c.states| - 1);
  }

  lemma TerminalsAreNames(g: Grammar, a: Symbol)
    requires g.WellFormed() && a in g.terminals
    ensures a.Name?
  {
  }

  /** A transition on the lookahead is taken. */
  lemma TakesShift(g: Grammar, A: Automaton, look: Lookaheads, t: Tables, input: seq<Symbol>, c: Config)
    requires Ready(g, A, look, t, input, c) && Rest(input, c) != [] && (c.states[|c.states| - 1],
      Rest(input, c)[0]) in A.delta
    requires Rest(input, c)[0] in g.terminals
    ensures var n := A.delta[(c.states[|c.states| - 1], Rest(input, c)[0])];
      n > 0 && Next(g, t, input, c) == (Continue, Shifted(c, n)) && Sound(g, A, input, Shifted(c, n))
    ensures var d := Next(g, t, input, c).1;
      Form(input, d) == Form(input, c) && |Rest(input, d)| == |Rest(input, c)| - 1 && |d.syms| == |c.syms| + 1
  {
    hide Rightmost;
    hide IsAutomaton;
    hide TablesFor;
    hide NoConflict;
    hide IsPath;
    hide Next;
    hide Grammar.WellFormed;
    ReadyFacts(g, A, look, t, input, c);
    var st, a := c.states[|c.states| - 1], Rest(input, c)[0];
    assert g.WellFormed() && a != DollarEnd by { TerminalsAreNames(g, a); }
    var it := WaitsFor(g, A, st, a);
    EntryIs(g, A, look, t, st, it, a);
    OfferKinds(g, A, look, st, it, a);
    ShiftSound(g, A, input, c, A.delta[(st, a)]);
    NextIs(g, t, input, c, c);
    ShiftKeepsForm(input, c, a, A.delta[(st, a)]);
  }

  lemma ShiftKeepsForm(input: seq<Symbol>, c: Config, a: Symbol, n: int)
    requires c.lookahead == Some(a) && a != DollarEnd && c.syms != []
    ensures var d := Shifted(c, n);
      Form(input, d) == Form(input, c) && |Rest(input, d)| == |Rest(input, c)| - 1 && |d.syms| == |c.syms| + 1
  {
    var d := Shifted(c, n);
    assert Rest(input, c) == [a] + Rest(input, d) && d.syms[1..] == c.syms[1..] + [a];
  }

  /** With a complete item on top and its lookahead next, the reduction is made. */
  lemma TakesReduce(g: Grammar, A: Automaton, look: Lookaheads, t: Tables, input: seq<Symbol>, c: Config, k: int)
    requires Ready(g, A, look, t, input, c) && 0 < k < |g.productions|
    requires TopHas(g, A, c.states, Item(k, |g.productions[k].prod|))
    requires LookaheadOf(Rest(input, c)) in look(c.states[|c.states| - 1], Item(k, |g.productions[k].prod|))
    ensures Poppable(g, t, c, k)
    ensures Next(g, t, input, c) == (Continue, Reduced(g, t, c, k)) && Sound(g, A, input, Reduced(g, t, c, k))
    ensures c.syms[|c.syms| - |g.productions[k].prod|..] == g.productions[k].prod
  {
    hide Rightmost;
    hide IsAutomaton;
    hide TablesFor;
    hide NoConflict;
    hide IsPath;
    hide Next;
    hide Grammar.WellFormed;
    var st, a, it := c.states[|c.states| - 1], LookaheadOf(Rest(input, c)), Item(k, |g.productions[k].prod|);
    ReadyFacts(g, A, look, t, input, c);
    EntryIs(g, A, look, t, st, it, a);
    Handle(g, A, c.states, c.syms, it);
    assert Reducible(g, A, c, k);
    GotoExists(g, A, look, t, c, k);
    ReduceSound(g, A, input, c, k, t.goto[c.states[|c.states| - 1 - it.dot]][g.productions[k].name]);
    hide Sound;
    hide Rest;
    NextIs(g, t, input, c, c);
  }

  /** The start symbol alone on the stack at the end of the input is accepted. */
  lemma TakesAccept(g: Grammar, A: Automaton, look: Lookaheads, t: Tables, input: seq<Symbol>, c: Config)
    requires Ready(g, A, look, t, input, c) && Rest(input, c) == [] && c.syms == Stack(g.productions[0].prod)
    ensures Next(g, t, input, c) == (Accepted, c)
  {
    hide Rightmost;
    ReadyFacts(g, A, look, t, input, c);
    assert A.C[0][0] == Item(0, 0);
    MovesOn(g, A, 0, Item(0, 0), g.productions[0].prod[0]);
    EntryIs(g, A, look, t, c.states[1], Item(0, 1), DollarEnd);
  }

  /** The bottom of the stack is the end marker. */
  ghost predicate Bottomed(c: Config) {
    c.syms != [] && c.syms[0] == DollarEnd
  }

  /** One round on track: the parser accepts, or comes closer to it. */
  ghost predicate Closer(g: Grammar, A: Automaton, input: seq<Symbol>, c: Config, d: Config, todo: seq<int>,
      todo': seq<int>) {
    && Sound(g, A, input, d) && Bottomed(d) && OnTrack(g, input, d, todo')
    && |todo'| + |Rest(input, d)| == |todo| + |Rest(input, c)| - 1
    && d.reductions + todo' == c.reductions + todo
  }

  lemma StepAtStart(g: Grammar, A: Automaton, look: Lookaheads, t: Tables, input: seq<Symbol>, c: Config)
    requires Ready(g, A, look, t, input, c) && Bottomed(c) && OnTrack(g, input, c, []) && Tokens(g, Rest(input, c))
    ensures var (outcome, d) := Next(g, t, input, c);
      || (outcome == Accepted && Rest(input, c) == [] && d == c)
      || (outcome == Continue && Closer(g, A, input, c, d, [], []))
  {
    hide Rightmost;
    hide Next;
    hide IsAutomaton;
    hide TablesFor;
    hide NoConflict;
    hide Rest;
    hide Form;
    ReadyFacts(g, A, look, t, input, c);
    FormParts(input, c);
    var start, rest := g.productions[0].prod, Rest(input, c);
    if rest == [] {
      assert c.syms[1..] == start;
      TakesAccept(g, A, look, t, input, c);
    } else {
      assert Form(input, c)[|c.syms| - 1] == rest[0];
      assert c.syms[1..] == [] && rest == start;
      StartAwaits(g, A, start[0]);
      assert start[0] in rest;
      TakesShift(g, A, look, t, input, c);
    }
  }

  /** The stack is the beginning of what a viable path reads, so the path goes through it. */
  lemma StackOnPath(A: Automaton, c: Config, states: seq<int>, word: seq<Symbol>)
    requires IsPath(A, c.states, c.syms) && Bottomed(c) && IsPath(A, states, Stack(word)) && c.syms[1..] <= word
    ensures c.states <= states
    ensures |c.syms| <= |word| ==> (c.states[|c.states| - 1], word[|c.syms| - 1]) in A.delta
    ensures |c.syms| == |word| + 1 ==> c.states == states
  {
    var n := |c.syms|;
    assert Stack(word)[..n] == c.syms;
    PathPrefix(A, states, Stack(word), n);
    PathUnique(A, c.states, states[..n], c.syms);
    if n <= |word| {
      assert Stack(word)[n] == word[n - 1];
    }
  }

  /** Up to the end of the part to be replaced, the stack and the rest of the input share it out. */
  lemma Shares(g: Grammar, c: Config, rest: seq<Symbol>, word: seq<Symbol>, z: seq<Symbol>)
    requires Bottomed(c) && c.syms[1..] + rest == word + z && |c.syms| <= |word| + 1
    ensures c.syms[1..] <= word
    ensures |c.syms| == |word| + 1 ==> c.syms[1..] == word && rest == z
    ensures |c.syms| <= |word| ==> rest != [] && rest[0] == word[|c.syms| - 1]
  {
    var f := word + z;
    assert f[..|c.syms| - 1] == c.syms[1..] && f[|c.syms| - 1..] == rest;
  }

  lemma StepOnWay(g: Grammar, A: Automaton, look: Lookaheads, t: Tables, input: seq<Symbol>, c: Config, todo: seq<int>)
    returns (todo': seq<int>)
    requires Ready(g, A, look, t, input, c) && Bottomed(c) && OnTrack(g, input, c, todo) && Tokens(g, Rest(input, c))
    requires Adequate(g, A, look) && todo != []
    ensures var (outcome, d) := Next(g, t, input, c);
      outcome == Continue && Closer(g, A, input, c, d, todo, todo')
  {
    hide Rightmost;
    hide Next;
    hide IsPath;
    hide IsAutomaton;
    hide TablesFor;
    hide NoConflict;
    hide Adequate;
    hide Form;
    hide Rest;
    ReadyFacts(g, A, look, t, input, c);
    var mid, i :| NotPast(g, c, todo, mid, i, Form(input, c));
    var k, u, z, rest := todo[0], mid[..i], mid[i + 1..], Rest(input, c);
    var rhs := g.productions[k].prod;
    var word := u + rhs;
    FormParts(input, c);
    Shares(g, c, rest, word, z);
    assert mid == u + [mid[i]] + z;
    RuleName(g, A, k);
    var before := Viable(g, A, todo[1..], u, mid[i], z);
    AwaitsRule(g, A, before, u, k);
    var states := ReadOn(g, A, before, u, k, |rhs|);
    assert rhs[..|rhs|] == rhs;
    StackOnPath(A, c, states, word);
    if |c.syms| == |word| + 1 {
      AdequateHere(g, A, look, todo[1..], u, k, z, states);
      TakesReduce(g, A, look, t, input, c, k);
      todo' := todo[1..];
      ReductionBack(g, t, input, c, k, u, z);
      TrackGoesOn(g, input, Reduced(g, t, c, k), todo', i);
    } else {
      assert rest[0] in rest;
      TakesShift(g, A, look, t, input, c);
      todo' := todo;
      assert NotPast(g, Next(g, t, input, c).1, todo, mid, i, Form(input, c));
    }
  }

  lemma FormParts(input: seq<Symbol>, c: Config)
    requires Bottomed(c)
    ensures Form(input, c) == c.syms[1..] + Rest(input, c)
  {
  }

  lemma AdequateHere(g: Grammar, A: Automaton, look: Lookaheads, todo: seq<int>, alpha: seq<Symbol>, k: int,
      v: seq<Symbol>, states: seq<int>)
    requires Adequate(g, A, look) && 0 < k < |g.productions|
    requires Derived(g, todo, alpha, g.productions[k].name, v) && Tokens(g, v)
      && IsPath(A, states, Stack(alpha + g.productions[k].prod))
    ensures LookaheadOf(v) in look(states[|states| - 1], Item(k, |g.productions[k].prod|))
  {
    hide Derived;
    hide IsPath;
    hide Tokens;
    assert AdequateAt(g, look, todo, alpha, k, v, states, A);
  }

  /** What the reduction leaves behind. */
  lemma ReductionBack(g: Grammar, t: Tables, input: seq<Symbol>, c: Config, k: int, u: seq<Symbol>, z: seq<Symbol>)
    requires Bottomed(c) && Poppable(g, t, c, k) && c.syms[1..] == u + g.productions[k].prod && Rest(input, c) == z
    ensures var d := Reduced(g, t, c, k);
      && Bottomed(d) && Rest(input, d) == z && |d.syms| == |u| + 2
      && Form(input, d) == u + [g.productions[k].name] + z
  {
    var d := Reduced(g, t, c, k);
    assert d.syms[1..] == u + [g.productions[k].name];
  }

  /** One round, looking at the next symbol included. */
  lemma StepCloser(g: Grammar, A: Automaton, look: Lookaheads, t: Tables, input: seq<Symbol>, c: Config,
      todo: seq<int>) returns (todo': seq<int>)
    requires TablesFor(g, A, look, t) && NoConflict(g, A, look) && Adequate(g, A, look) && Tokens(g, input)
    requires Sound(g, A, input, c) && Bottomed(c) && OnTrack(g, input, c, todo)
    ensures var (outcome, d) := Next(g, t, input, c);
      || (outcome == Accepted && |todo| + |Rest(input, c)| == 0 && d.reductions == c.reductions)
      || (outcome == Continue && Closer(g, A, input, c, d, todo, todo'))
  {
    TableFacts(g, A, look, t);
    FetchKeeps(g, A, input, c);
    hide TablesFor;
    hide NoConflict;
    hide Adequate;
    hide IsAutomaton;
    hide Sound;
    hide Form;
    hide Rest;
    hide Rightmost;
    hide NotPast;
    hide Grammar.WellFormed;
    var f := Fetched(input, c);
    FetchedStays(g, t, input, c);
    TrackKept(g, input, c, f, todo);
    if todo == [] {
      todo' := [];
      StepAtStart(g, A, look, t, input, f);
    } else {
      todo' := StepOnWay(g, A, look, t, input, f, todo);
    }
  }

  lemma TrackKept(g: Grammar, input: seq<Symbol>, c: Config, d: Config, todo: seq<int>)
    requires OnTrack(g, input, c, todo) && Form(input, d) == Form(input, c) && d.syms == c.syms
    ensures OnTrack(g, input, d, todo)
  {
    hide Form;
    hide Rightmost;
    hide RightmostAt;
    if todo != [] {
      var mid, i :| NotPast(g, c, todo, mid, i, Form(input, c));
      assert NotPast(g, d, todo, mid, i, Form(input, d));
    }
  }

  lemma FetchedStays(g: Grammar, t: Tables, input: seq<Symbol>, c: Config)
    ensures Next(g, t, input, Fetched(input, c)) == Next(g, t, input, c)
  {
    assert Fetched(input, Fetched(input, c)) == Fetched(input, c);
  }

  /** On track, the parser accepts within as many rounds as reductions and symbols are left, and one more. */
  lemma {:induction false} Arrives(g: Grammar, A: Automaton, look: Lookaheads, t: Tables, input: seq<Symbol>,
      c: Config, todo: seq<int>, rounds: nat)
    requires TablesFor(g, A, look, t) && NoConflict(g, A, look) && Adequate(g, A, look) && Tokens(g, input)
    requires Sound(g, A, input, c) && Bottomed(c) && OnTrack(g, input, c, todo)
    requires rounds > |todo| + |Rest(input, c)|
    ensures RunFor(g, t, input, c, rounds).0 == Accepted
    ensures RunFor(g, t, input, c, rounds).1.reductions == c.reductions + todo
    decreases rounds
  {
    hide TablesFor;
    hide NoConflict;
    hide Adequate;
    hide Sound;
    hide OnTrack;
    hide Rest;
    hide Next;
    hide RunFor;
    var todo' := StepCloser(g, A, look, t, input, c, todo);
    RunUnfold(g, t, input, c, rounds);
    if Next(g, t, input, c).0 == Continue {
      Arrives(g, A, look, t, input, Next(g, t, input, c).1, todo', rounds - 1);
    }
  }

  // ----- and never accepts more

  lemma NextSound(g: Grammar, A: Automaton, look: Lookaheads, t: Tables, input: seq<Symbol>, c: Config)
    requires TablesFor(g, A, look, t) && Tokens(g, input) && Sound(g, A, input, c)
    ensures var (outcome, d) := Next(g, t, input, c);
      && Sound(g, A, input, d)
      && (outcome == Accepted ==> |g.productions| > 0 && Rightmost(g, g.productions[0].prod, d.reductions, input))
  {
    hide TablesFor;
    hide IsAutomaton;
    hide Rightmost;
    hide IsPath;
    hide Poppable;
    hide Next;
    hide Fetched;
    hide Reduced;
    hide Shifted;
    hide Grammar.WellFormed;
    hide Tokens;
    TableFacts(g, A, look, t);
    FetchKeeps(g, A, input, c);
    var d := Fetched(input, c);
    NextIs(g, t, input, c, d);
    if ActionFor(t, d).Act? {
      var n := ActionFor(t, d).n;
      assert LRParser.Entry(g, A, look, t, input, d, n);
      hide LRParser.Entry;
      if n > 0 {
        EntryShifts(g, A, look, t, input, d, n);
        ShiftSound(g, A, input, d, n);
        ShiftedIs(d, n);
      } else if n < 0 {
        EntryReduces(g, A, look, t, input, d, n);
        ReducesSound(g, A, look, t, input, d, -n);
      } else {
        EntryAccepts(g, A, look, t, input, d);
      }
    }
  }

  lemma ShiftedIs(c: Config, n: int)
    requires c.lookahead.Some?
    ensures Shifted(c, n) == c.(states := c.states + [n], syms := c.syms + [c.lookahead.value], lookahead := None)
  {
  }

  lemma ReducesSound(g: Grammar, A: Automaton, look: Lookaheads, t: Tables, input: seq<Symbol>, d: Config, p: int)
    requires TablesFor(g, A, look, t) && Tokens(g, input) && Sound(g, A, input, d) && Reducible(g, A, d, p)
    ensures Poppable(g, t, d, p) && Sound(g, A, input, Reduced(g, t, d, p))
  {
    hide TablesFor;
    hide IsAutomaton;
    hide Rightmost;
    hide IsPath;
    TableFacts(g, A, look, t);
    GotoExists(g, A, look, t, d, p);
    ReduceSound(g, A, input, d, p, t.goto[d.states[|d.states| - 1 - |g.productions[p].prod|]][g.productions[p].name]);
    PoppableIs(g, A, t, d, p);
  }

  lemma PoppableIs(g: Grammar, A: Automaton, t: Tables, c: Config, p: int)
    requires Reducible(g, A, c, p)
    requires var st := c.states[|c.states| - 1 - |g.productions[p].prod|];
      0 <= st < |t.goto| && g.productions[p].name in t.goto[st]
    ensures Poppable(g, t, c, p)
  {
  }

  lemma {:induction false} RunSound(g: Grammar, A: Automaton, look: Lookaheads, t: Tables, input: seq<Symbol>,
      c: Config, rounds: nat)
    requires TablesFor(g, A, look, t) && Tokens(g, input) && Sound(g, A, input, c)
    requires RunFor(g, t, input, c, rounds).0 == Accepted
    ensures |g.productions| > 0 && g.Derives(g.productions[0].prod, input)
    decreases rounds
  {
    hide TablesFor;
    hide Sound;
    hide Next;
    hide RunFor;
    hide Rightmost;
    RunDone(g, t, input, c);
    RunUnfold(g, t, input, c, rounds);
    NextSound(g, A, look, t, input, c);
    if Next(g, t, input, c).0 == Continue {
      RunSound(g, A, look, t, input, Next(g, t, input, c).1, rounds - 1);
    } else {
      RightmostDerives(g, g.productions[0].prod, Next(g, t, input, c).1.reductions, input);
    }
  }

  lemma InitialSound(g: Grammar, A: Automaton, input: seq<Symbol>)
    ensures Sound(g, A, input, Initial()) && Bottomed(Initial()) && Rest(input, Initial()) == input
  {
    assert Form(input, Initial()) == input;
  }

  /**
   * Tables without conflicts, built for adequate lookaheads: the parser accepts
   * exactly the sentences of the grammar, a sentence with a rightmost derivation
   * of n steps within n rounds and one for each token and one more.
   */
  lemma AcceptsExactly(g: Grammar, A: Automaton, look: Lookaheads, t: Tables, input: seq<Symbol>)
    requires TablesFor(g, A, look, t) && NoConflict(g, A, look) && Adequate(g, A, look) && Tokens(g, input)
    ensures |g.productions| > 0
    ensures (exists rounds: nat :: RunFor(g, t, input, Initial(), rounds).0 == Accepted) <==>
      g.Derives(g.productions[0].prod, input)
    ensures forall reductions, rounds: nat ::
      Rightmost(g, g.productions[0].prod, reductions, input) && rounds > |reductions| + |input| ==>
      RunFor(g, t, input, Initial(), rounds).0 == Accepted
  {
    TableFacts(g, A, look, t);
    var start := g.productions[0].prod;
    InitialSound(g, A, input);
    hide TablesFor;
    hide NoConflict;
    hide Adequate;
    hide IsAutomaton;
    hide RunFor;
    hide Rightmost;
    hide Sound;
    hide OnTrack;
    hide Rest;
    forall reductions, rounds: nat | Rightmost(g, start, reductions, input) && rounds > |reductions| + |input|
      ensures RunFor(g, t, input, Initial(), rounds).0 == Accepted
    {
      TrackStarts(g, input, reductions);
      Arrives(g, A, look, t, input, Initial(), reductions, rounds);
    }
    if g.Derives(start, input) {
      var n: nat :| g.DerivesIn(start, input, n);
      TokensAreNot(g, input);
      var reductions := RightmostExists(g, start, input, n);
      assert RunFor(g, t, input, Initial(), |reductions| + |input| + 1).0 == Accepted;
    }
    if rounds: nat :| RunFor(g, t, input, Initial(), rounds).0 == Accepted {
      RunSound(g, A, look, t, input, Initial(), rounds);
    }
  }

  /** Then no sentence has two rightmost derivations. */
  lemma Unambiguous(g: Grammar, A: Automaton, look: Lookaheads, t: Tables, input: seq<Symbol>, r1: seq<int>,
      r2: seq<int>)
    requires TablesFor(g, A, look, t) && NoConflict(g, A, look) && Adequate(g, A, look) && Tokens(g, input)
    requires |g.productions| > 0 && Rightmost(g, g.productions[0].prod, r1, input)
      && Rightmost(g, g.productions[0].prod, r2, input)
    ensures r1 == r2
  {
    TableFacts(g, A, look, t);
    InitialSound(g, A, input);
    hide TablesFor;
    hide NoConflict;
    hide Adequate;
    hide IsAutomaton;
    hide RunFor;
    hide Rightmost;
    hide Sound;
    hide OnTrack;
    hide Rest;
    TrackStarts(g, input, r1);
    TrackStarts(g, input, r2);
    var rounds := |r1| + |r2| + |input| + 1;
    Arrives(g, A, look, t, input, Initial(), r1, rounds);
    Arrives(g, A, look, t, input, Initial(), r2, rounds);
    assert [] + r1 == r1 && [] + r2 == r2;
  }

  lemma TokensAreNot(g: Grammar, w: seq<Symbol>)
    requires g.WellFormed() && Tokens(g, w)
    ensures NoNonterminal(g, w)
  {
  }
}
