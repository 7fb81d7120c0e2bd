/** The shift/reduce engine, run without errors on tables of the generator. */
module LRParser {
  import opened Options
  import opened Grammar
  import opened LR0
  import opened LRTable

  datatype Outcome = Continue | Accepted | Rejected

  // ----- paths of the automaton

  /** The state stack is a path of the automaton, spelled by the symbols above the bottom marker. */
  ghost predicate IsPath(A: Automaton, states: seq<int>, syms: seq<Symbol>) {
    && |states| == |syms| > 0 && states[0] == 0
    && forall i :: 1 <= i < |states| ==>
       (states[i - 1], syms[i]) in A.delta && A.delta[(states[i - 1], syms[i])] == states[i]
  }

  lemma PathStates(g: Grammar, A: Automaton, states: seq<int>, syms: seq<Symbol>, i: int)
    requires IsAutomaton(g, A) && IsPath(A, states, syms) && 0 <= i < |states|
    ensures 0 <= states[i] < |A.C| && (states[i] == 0 <==> i == 0)
  {
    assert i > 0 ==> (states[i - 1], syms[i]) in A.delta && Edge(g, A, (states[i - 1], syms[i]));
  }

  lemma PathPrefix(A: Automaton, states: seq<int>, syms: seq<Symbol>, n: int)
    requires IsPath(A, states, syms) && 0 < n <= |states|
    ensures IsPath(A, states[..n], syms[..n])
  {
  }

  lemma PathExtends(A: Automaton, states: seq<int>, syms: seq<Symbol>, x: Symbol, j: int)
    requires IsPath(A, states, syms) && (states[|states| - 1], x) in A.delta && j == A.delta[(states[|states| - 1], x)]
    ensures IsPath(A, states + [j], syms + [x])
  {
  }

  /** Only the closure puts an initial item into a state; a moved dot comes from the previous state. */
  lemma ItemOrigin(g: Grammar, A: Automaton, st: int, x: Symbol, it: Item)
    requires IsAutomaton(g, A) && (st, x) in A.delta && 0 <= st < |A.C| && 0 <= A.delta[(st, x)] < |A.C|
    requires it in A.C[A.delta[(st, x)]]
    ensures it.dot > 0 ==> Item(it.number, it.dot - 1) in A.C[st] && Before(g, Item(it.number, it.dot - 1), x)
    ensures it.dot == 0 ==> it.number > 0
  {
    var K, J := Kernel(g, A.C[st], x), A.C[A.delta[(st, x)]];
    assert Transition(g, A.C[st], x, J);
    var k :| 0 <= k < |J| && J[k] == it;
    if k < |K| {
      assert K[k] == it;
      KernelItems(g, A.C[st], x, it);
    } else {
      assert Justified(g, J, k);
    }
  }

  /** In state 0 every item is initial. */
  lemma FirstState(g: Grammar, A: Automaton, it: Item)
    requires IsAutomaton(g, A) && it in A.C[0]
    ensures it.dot == 0
  {
    var k :| 0 <= k < |A.C[0]| && A.C[0][k] == it;
    if k > 0 {
      assert Justified(g, A.C[0], k);
    }
  }

  lemma HandleStep(g: Grammar, A: Automaton, states: seq<int>, syms: seq<Symbol>, it: Item)
    requires IsAutomaton(g, A) && IsPath(A, states, syms)
    requires 0 <= states[|states| - 1] < |A.C| && it in A.C[states[|states| - 1]]
    ensures |states| == |syms| > 0 && ItemOf(g, it)
    ensures it.dot > 0 ==>
      && |states| > 1 && 0 <= states[|states| - 2] < |A.C|
      && Item(it.number, it.dot - 1) in A.C[states[|states| - 2]]
      && g.productions[it.number].prod[it.dot - 1] == syms[|syms| - 1]
      && IsPath(A, states[..|states| - 1], syms[..|syms| - 1])
  {
    var top := |states| - 1;
    assert GoodSet(g, A.C[states[top]]);
    if it.dot > 0 {
      if top == 0 {
        FirstState(g, A, it);
      }
      assert (states[top - 1], syms[top]) in A.delta && Edge(g, A, (states[top - 1], syms[top]));
      ItemOrigin(g, A, states[top - 1], syms[top], it);
      PathPrefix(A, states, syms, top);
    }
  }

  /**
   * An item on top of the stack has its part before the dot right below it, and
   * its initial form in the state under that.
   */
  lemma {:induction false} Handle(g: Grammar, A: Automaton, states: seq<int>, syms: seq<Symbol>, it: Item)
    requires IsAutomaton(g, A) && IsPath(A, states, syms)
    requires 0 <= states[|states| - 1] < |A.C| && it in A.C[states[|states| - 1]]
    ensures |states| == |syms| && it.dot < |states| && ItemOf(g, it)
    ensures syms[|syms| - it.dot..] == g.productions[it.number].prod[..it.dot]
    ensures 0 <= states[|states| - 1 - it.dot] < |A.C| && Item(it.number, 0) in A.C[states[|states| - 1 - it.dot]]
    decreases it.dot
  {
    hide IsAutomaton;
    hide IsPath;
    HandleStep(g, A, states, syms, it);
    if it.dot > 0 {
      var top := |states| - 1;
      var before := Item(it.number, it.dot - 1);
      Handle(g, A, states[..top], syms[..top], before);
      var rhs := g.productions[it.number].prod;
      assert syms[top + 1 - it.dot..] == syms[..top][top - before.dot..] + [syms[top]];
      assert rhs[..it.dot] == rhs[..before.dot] + [rhs[before.dot]];
    } else {
      assert syms[|syms|..] == [];
    }
  }

  lemma FromKernel(g: Grammar, K: ItemSet, J: ItemSet, k: int)
    requires IsClosure(g, K, J) && 0 <= k < |K| && k < |J|
    ensures J[k] in K
  {
    assert J[k] == K[k];
  }

  /** An initial item that is not in the kernel was added for its left-hand side. */
  lemma AddedFor(g: Grammar, K: ItemSet, J: ItemSet, p: nat)
    requires IsClosure(g, K, J) && Item(p, 0) in J && Item(p, 0) !in K && p < |g.productions|
    ensures Kernel(g, J, g.productions[p].name) != []
  {
    var k :| 0 <= k < |J| && J[k] == Item(p, 0);
    if k < |K| {
      FromKernel(g, K, J, k);
    }
    assert Justified(g, J, k);
    var i :| 0 <= i < k && J[k].number in After(g, J[i]);
    KernelItems(g, J, g.productions[p].name, Item(J[i].number, J[i].dot + 1));
  }

  /** Where an initial item of a rule sits, the rule's left-hand side leads on. */
  lemma InitialLeadsOn(g: Grammar, A: Automaton, st: int, p: nat)
    requires IsAutomaton(g, A) && 0 <= st < |A.C| && 0 < p < |g.productions| && Item(p, 0) in A.C[st]
    requires st > 0 ==> exists s, x :: (s, x) in A.delta && A.delta[(s, x)] == st
    ensures (st, g.productions[p].name) in A.delta
  {
    hide Before;
    hide IsClosure;
    if st > 0 {
      var s, x :| (s, x) in A.delta && A.delta[(s, x)] == st;
      assert Edge(g, A, (s, x));
      var K := Kernel(g, A.C[s], x);
      KernelItems(g, A.C[s], x, Item(p, 0));
      AddedFor(g, K, A.C[st], p);
    } else {
      AddedFor(g, [Item(0, 0)], A.C[0], p);
    }
  }

  // ----- derivations read off the reductions

  ghost predicate NoNonterminal(g: Grammar, w: seq<Symbol>) {
    forall s :: s in w ==> s !in g.nonterminals
  }

  /** The rightmost nonterminal of a, at i, is rewritten by production p. */
  ghost predicate RightmostAt(g: Grammar, a: seq<Symbol>, b: seq<Symbol>, p: int, i: int) {
    && 0 < p < |g.productions|
    && 0 <= i < |a| && a[i] == g.productions[p].name && NoNonterminal(g, a[i + 1..])
    && b == a[..i] + g.productions[p].prod + a[i + 1..]
  }

  ghost predicate RightmostStep(g: Grammar, a: seq<Symbol>, b: seq<Symbol>, p: int) {
    exists i :: RightmostAt(g, a, b, p, i)
  }

  /** The reductions, undone from the last to the first, are a rightmost derivation of w from form. */
  ghost predicate Rightmost(g: Grammar, form: seq<Symbol>, reductions: seq<int>, w: seq<Symbol>)
    decreases |reductions|
  {
    if reductions == [] then form == w
    else
      var last := |reductions| - 1;
      exists next :: RightmostStep(g, form, next, reductions[last]) && Rightmost(g, next, reductions[..last], w)
  }

  /** In particular form derives w. */
  lemma {:induction false} RightmostDerives(g: Grammar, form: seq<Symbol>, reductions: seq<int>, w: seq<Symbol>)
    requires Rightmost(g, form, reductions, w)
    ensures g.Derives(form, w)
    decreases |reductions|
  {
    if reductions == [] {
      g.DerivesSelf(w);
    } else {
      var last := |reductions| - 1;
      var next :| RightmostStep(g, form, next, reductions[last]) && Rightmost(g, next, reductions[..last], w);
      RightmostDerives(g, next, reductions[..last], w);
      var p := g.productions[reductions[last]];
      var i :| RightmostAt(g, form, next, reductions[last], i);
      assert g.StepAt(form, next, i, p);
      assert g.Step(form, next);
      var n: nat :| g.DerivesIn(next, w, n);
      assert g.DerivesIn(form, w, n + 1);
    }
  }

  lemma RightmostAppends(g: Grammar, form: seq<Symbol>, next: seq<Symbol>, p: int, reductions: seq<int>, w: seq<Symbol>)
    requires RightmostStep(g, form, next, p) && Rightmost(g, next, reductions, w)
    ensures Rightmost(g, form, reductions + [p], w)
  {
    hide RightmostStep;
    var more := reductions + [p];
    assert more[|more| - 1] == p && more[..|more| - 1] == reductions;
  }

  lemma ReductionExtends(g: Grammar, u: seq<Symbol>, v: seq<Symbol>, p: int, reductions: seq<int>, w: seq<Symbol>)
    requires 0 < p < |g.productions| && NoNonterminal(g, v)
    requires Rightmost(g, u + g.productions[p].prod + v, reductions, w)
    ensures Rightmost(g, u + [g.productions[p].name] + v, reductions + [p], w)
  {
    hide Rightmost;
    var a, b := u + [g.productions[p].name] + v, u + g.productions[p].prod + v;
    assert a[..|u|] == u && a[|u| + 1..] == v && a[|u|] == g.productions[p].name;
    assert RightmostAt(g, a, b, p, |u|);
    RightmostAppends(g, a, b, p, reductions, w);
  }

  // ----- the engine

  /** The parser's variables. */
  datatype Config = Config(states: seq<int>, syms: seq<Symbol>, lookahead: Option<Symbol>, pos: int,
      reductions: seq<int>)

  /** What is still to be read: the lookahead and the tokens behind it. */
  ghost function Rest(input: seq<Symbol>, c: Config): seq<Symbol> {
    (if c.lookahead.Some? && c.lookahead.value != DollarEnd then [c.lookahead.value] else [])
    + (if 0 <= c.pos <= |input| then input[c.pos..] else [])
  }

  /** The current right-sentential form: the stack above the bottom marker, then the rest. */
  ghost function Form(input: seq<Symbol>, c: Config): seq<Symbol> {
    (if |c.syms| > 0 then c.syms[1..] else []) + Rest(input, c)
  }

  ghost predicate Tokens(g: Grammar, input: seq<Symbol>) {
    forall s :: s in input ==> s in g.terminals
  }

  /** The invariant of a run: a path on the stack, and reductions that derive the input from the current form. */
  ghost predicate Sound(g: Grammar, A: Automaton, input: seq<Symbol>, c: Config) {
    && 0 <= c.pos <= |input|
    && (c.lookahead.Some? ==> c.lookahead.value in g.terminals || (c.lookahead.value == DollarEnd && c.pos == |input|))
    && IsPath(A, c.states, c.syms)
    && Rightmost(g, Form(input, c), c.reductions, input)
  }

  /** The plen topmost entries spell the right-hand side of p, and p may start in the state below. */
  ghost predicate Reducible(g: Grammar, A: Automaton, c: Config, p: int) {
    && 0 < p < |g.productions|
    && var plen := |g.productions[p].prod|;
    && plen < |c.states| == |c.syms|
    && c.syms[|c.syms| - plen..] == g.productions[p].prod
    && 0 <= c.states[|c.states| - 1 - plen] < |A.C|
    && Item(p, 0) in A.C[c.states[|c.states| - 1 - plen]]
  }

  lemma FetchSound(g: Grammar, A: Automaton, input: seq<Symbol>, c: Config)
    requires g.WellFormed() && Tokens(g, input) && Sound(g, A, input, c) && c.lookahead.None?
    ensures c.pos < |input| ==> Sound(g, A, input, c.(lookahead := Some(input[c.pos]), pos := c.pos + 1))
    ensures c.pos == |input| ==> Sound(g, A, input, c.(lookahead := Some(DollarEnd)))
  {
    hide Rightmost;
    if c.pos < |input| {
      var c' := c.(lookahead := Some(input[c.pos]), pos := c.pos + 1);
      assert input[c.pos] in input;
      assert input[c.pos..] == [input[c.pos]] + input[c.pos + 1..];
      assert Form(input, c') == Form(input, c);
    } else {
      assert Form(input, c.(lookahead := Some(DollarEnd))) == Form(input, c);
    }
  }

  lemma ShiftSound(g: Grammar, A: Automaton, input: seq<Symbol>, c: Config, n: int)
    requires g.WellFormed() && Sound(g, A, input, c) && c.lookahead.Some? && c.lookahead.value in g.terminals
    requires (c.states[|c.states| - 1], c.lookahead.value) in A.delta && n ==
      A.delta[(c.states[|c.states| - 1], c.lookahead.value)]
    ensures Sound(g, A, input, c.(states := c.states + [n], syms := c.syms + [c.lookahead.value], lookahead := None))
  {
    hide Rightmost;
    var c' := c.(states := c.states + [n], syms := c.syms + [c.lookahead.value], lookahead := None);
    PathExtends(A, c.states, c.syms, c.lookahead.value, n);
    hide IsPath;
    assert Form(input, c') == Form(input, c);
  }

  lemma RestIsTokens(g: Grammar, A: Automaton, input: seq<Symbol>, c: Config)
    requires g.WellFormed() && Tokens(g, input) && Sound(g, A, input, c)
    ensures NoNonterminal(g, Rest(input, c))
  {
    hide Rightmost;
    forall s | s in input[c.pos..] ensures s in g.terminals {
      assert s in input;
    }
  }

  function Popped(g: Grammar, c: Config, p: int): Config
    requires 0 < p < |g.productions| && |g.productions[p].prod| < |c.states| == |c.syms|
  {
    c.(states := c.states[..|c.states| - |g.productions[p].prod|], syms := c.syms[..|c.syms| - |g.productions[p].prod|])
  }

  /** After popping, the left-hand side has a GOTO entry. */
  lemma GotoExists(g: Grammar, A: Automaton, look: Lookaheads, t: Tables, c: Config, p: int)
    requires TablesFor(g, A, look, t) && IsPath(A, c.states, c.syms) && Reducible(g, A, c, p)
    ensures var st := c.states[|c.states| - 1 - |g.productions[p].prod|];
      && 0 <= st < |t.goto| && g.productions[p].name in t.goto[st]
      && (st, g.productions[p].name) in A.delta && t.goto[st][g.productions[p].name] ==
         A.delta[(st, g.productions[p].name)]
      && 0 <= t.goto[st][g.productions[p].name] < |A.C|
  {
    hide ActionRow;
    var k := |c.states| - 1 - |g.productions[p].prod|;
    var st := c.states[k];
    PathStates(g, A, c.states, c.syms, k);
    if st > 0 {
      assert (c.states[k - 1], c.syms[k]) in A.delta && A.delta[(c.states[k - 1], c.syms[k])] == st;
    }
    InitialLeadsOn(g, A, st, p);
    assert GotoRow(g, A, st, t.goto[st]) && Edge(g, A, (st, g.productions[p].name));
  }

  lemma ReduceSound(g: Grammar, A: Automaton, input: seq<Symbol>, c: Config, p: int, j: int)
    requires g.WellFormed() && Tokens(g, input) && Sound(g, A, input, c) && Reducible(g, A, c, p)
    requires var st := c.states[|c.states| - 1 - |g.productions[p].prod|];
      (st, g.productions[p].name) in A.delta && j == A.delta[(st, g.productions[p].name)]
    ensures var d := Popped(g, c, p);
      Sound(g, A, input, d.(states := d.states + [j], syms := d.syms + [g.productions[p].name],
        reductions := c.reductions + [p]))
  {
    hide Rightmost;
    var d := Popped(g, c, p);
    var c' := d.(states := d.states + [j], syms := d.syms + [g.productions[p].name], reductions := c.reductions + [p]);
    var u, v := d.syms[1..], Rest(input, c);
    RestIsTokens(g, A, input, c);
    PathPrefix(A, c.states, c.syms, |d.states|);
    PathExtends(A, d.states, d.syms, g.productions[p].name, j);
    hide IsPath;
    assert c.syms[1..] == u + g.productions[p].prod;
    assert Form(input, c) == u + g.productions[p].prod + v;
    ReductionExtends(g, u, v, p, c.reductions, input);
    assert c'.syms[1..] == u + [g.productions[p].name];
    assert Rest(input, c') == v;
  }

  /** Accepting leaves the start symbol alone on the stack and nothing to read. */
  lemma Acceptance(g: Grammar, A: Automaton, input: seq<Symbol>, c: Config, it: Item)
    requires IsAutomaton(g, A) && Sound(g, A, input, c) && c.lookahead == Some(DollarEnd)
    requires 0 <= c.states[|c.states| - 1] < |A.C| && it in A.C[c.states[|c.states| - 1]]
    requires it.number == 0 && IsComplete(g, it)
    ensures Form(input, c) == g.productions[0].prod
  {
    Handle(g, A, c.states, c.syms, it);
    hide Rightmost;
    var k := |c.states| - 2;
    PathStates(g, A, c.states, c.syms, k);
    if k > 0 {
      assert (c.states[k - 1], c.syms[k]) in A.delta && A.delta[(c.states[k - 1], c.syms[k])] == c.states[k];
      PathStates(g, A, c.states, c.syms, k - 1);
      ItemOrigin(g, A, c.states[k - 1], c.syms[k], Item(0, 0));
    }
    assert input[c.pos..] == [];
    assert c.syms[1..] == c.syms[|c.syms| - 1..] == g.productions[0].prod;
  }

  lemma TableFacts(g: Grammar, A: Automaton, look: Lookaheads, t: Tables)
    requires TablesFor(g, A, look, t)
    ensures IsAutomaton(g, A) && g.WellFormed() && |t.action| == |t.goto| == |A.C|
  {
  }

  lemma EdgeFact(g: Grammar, A: Automaton, st: int, x: Symbol)
    requires IsAutomaton(g, A) && (st, x) in A.delta
    ensures 0 <= st < |A.C| && 1 <= A.delta[(st, x)] < |A.C|
  {
    assert Edge(g, A, (st, x));
  }

  lemma RowEntry(g: Grammar, A: Automaton, look: Lookaheads, t: Tables, st: int, a: Symbol) returns (it: Item)
    requires TablesFor(g, A, look, t) && 0 <= st < |t.action| && a in t.action[st] && t.action[st][a].Act?
    ensures |t.action| == |A.C| && Proposed(g, A, look, st, it, a, t.action[st][a].n)
  {
    hide Proposed;
    assert ActionRow(g, A, look, st, t.action[st]);
    it :| Proposed(g, A, look, st, it, a, t.action[st][a].n);
  }

  /** An entry of the action table is taken in configuration c. */
  ghost predicate Entry(g: Grammar, A: Automaton, look: Lookaheads, t: Tables, input: seq<Symbol>, c: Config, n: int) {
    && TablesFor(g, A, look, t) && Sound(g, A, input, c) && c.lookahead.Some?
    && var st, a := c.states[|c.states| - 1], c.lookahead.value;
    && 0 <= st < |t.action| && a in t.action[st] && t.action[st][a] == Act(n)
  }

  /** A positive entry is a transition on a terminal. */
  lemma EntryShifts(g: Grammar, A: Automaton, look: Lookaheads, t: Tables, input: seq<Symbol>, c: Config, n: int)
    requires Entry(g, A, look, t, input, c, n) && n > 0
    ensures c.lookahead.value in g.terminals
    ensures var key := (c.states[|c.states| - 1], c.lookahead.value);
      key in A.delta && n == A.delta[key] && 0 <= n < |A.C|
  {
    hide Rightmost;
    hide TablesFor;
    hide IsAutomaton;
    var st, a := c.states[|c.states| - 1], c.lookahead.value;
    var it := RowEntry(g, A, look, t, st, a);
    TableFacts(g, A, look, t);
    OfferKinds(g, A, look, st, it, a);
    EdgeFact(g, A, st, a);
  }

  /** A negative entry finds its right-hand side on top of the stack. */
  lemma EntryReduces(g: Grammar, A: Automaton, look: Lookaheads, t: Tables, input: seq<Symbol>, c: Config, n: int)
    requires Entry(g, A, look, t, input, c, n) && n < 0
    ensures Reducible(g, A, c, -n)
  {
    hide Rightmost;
    hide TablesFor;
    hide IsAutomaton;
    var st, a := c.states[|c.states| - 1], c.lookahead.value;
    var it := RowEntry(g, A, look, t, st, a);
    TableFacts(g, A, look, t);
    OfferKinds(g, A, look, st, it, a);
    Handle(g, A, c.states, c.syms, it);
    hide IsPath;
  }

  /** A zero entry is met only at the end of the input, with the start symbol alone on the stack. */
  lemma EntryAccepts(g: Grammar, A: Automaton, look: Lookaheads, t: Tables, input: seq<Symbol>, c: Config)
    requires Entry(g, A, look, t, input, c, 0)
    ensures c.lookahead.value == DollarEnd && g.WellFormed() && Form(input, c) == g.productions[0].prod
  {
    hide Rightmost;
    hide TablesFor;
    hide IsAutomaton;
    var st, a := c.states[|c.states| - 1], c.lookahead.value;
    var it := RowEntry(g, A, look, t, st, a);
    TableFacts(g, A, look, t);
    OfferKinds(g, A, look, st, it, a);
    Acceptance(g, A, input, c, it);
  }

  // ----- the loop on configurations

  ghost function Initial(): Config {
    Config([0], [DollarEnd], None, 0, [])
  }

  ghost function Fetched(input: seq<Symbol>, c: Config): Config {
    if c.lookahead.Some? then c
    else if 0 <= c.pos < |input| then c.(lookahead := Some(input[c.pos]), pos := c.pos + 1)
    else c.(lookahead := Some(DollarEnd))
  }

  ghost function ActionFor(t: Tables, c: Config): LRTable.Entry {
    if c.states != [] && c.lookahead.Some? && 0 <= c.states[|c.states| - 1] < |t.action|
       && c.lookahead.value in t.action[c.states[|c.states| - 1]]
    then t.action[c.states[|c.states| - 1]][c.lookahead.value]
    else Blocked
  }

  ghost function Shifted(c: Config, n: int): Config {
    c.(states := c.states + [n], syms := c.syms + (if c.lookahead.Some? then [c.lookahead.value] else []),
      lookahead := None)
  }

  /** The right-hand side of p can be popped, and its left-hand side has a GOTO entry below. */
  ghost predicate Poppable(g: Grammar, t: Tables, c: Config, p: int) {
    && 0 < p < |g.productions| && |g.productions[p].prod| < |c.states| == |c.syms|
    && var st := c.states[|c.states| - 1 - |g.productions[p].prod|];
    0 <= st < |t.goto| && g.productions[p].name in t.goto[st]
  }

  ghost function Reduced(g: Grammar, t: Tables, c: Config, p: int): Config
    requires Poppable(g, t, c, p)
  {
    var d := Popped(g, c, p);
    d.(states := d.states + [t.goto[d.states[|d.states| - 1]][g.productions[p].name]],
       syms := d.syms + [g.productions[p].name], reductions := c.reductions + [p])
  }

  /** One round of the loop. */
  ghost function Next(g: Grammar, t: Tables, input: seq<Symbol>, c: Config): (Outcome, Config) {
    var d := Fetched(input, c);
    match ActionFor(t, d)
    case Blocked => (Rejected, d)
    case Act(n) =>
      if n > 0 then (Continue, Shifted(d, n))
      else if n == 0 then (Accepted, d)
      else if Poppable(g, t, d, -n) then (Continue, Reduced(g, t, d, -n))
      else (Rejected, d)
  }

  lemma NextIs(g: Grammar, t: Tables, input: seq<Symbol>, c: Config, d: Config)
    requires d == Fetched(input, c)
    ensures match ActionFor(t, d)
      case Blocked => Next(g, t, input, c) == (Rejected, d)
      case Act(n) =>
        && (n > 0 ==> Next(g, t, input, c) == (Continue, Shifted(d, n)))
        && (n == 0 ==> Next(g, t, input, c) == (Accepted, d))
        && (n < 0 && Poppable(g, t, d, -n) ==> Next(g, t, input, c) == (Continue, Reduced(g, t, d, -n)))
  {
    hide Fetched;
    hide Shifted;
    hide Reduced;
    hide Poppable;
  }

  /** What the loop has come to after so many rounds. */
  ghost function RunFor(g: Grammar, t: Tables, input: seq<Symbol>, c: Config, rounds: nat): (Outcome, Config)
    decreases rounds
  {
    if rounds == 0 then (Continue, c)
    else
      var (outcome, d) := Next(g, t, input, c);
      if outcome == Continue then RunFor(g, t, input, d, rounds - 1) else (outcome, d)
  }

  /** If what remains after c gives result, so does what remains after a round that goes on; else the round gives it. */
  lemma RunUnfold(g: Grammar, t: Tables, input: seq<Symbol>, c: Config, rounds: nat)
    requires rounds > 0
    ensures Next(g, t, input, c).0 == Continue ==>
      RunFor(g, t, input, c, rounds) == RunFor(g, t, input, Next(g, t, input, c).1, rounds - 1)
    ensures Next(g, t, input, c).0 != Continue ==> RunFor(g, t, input, c, rounds) == Next(g, t, input, c)
  {
    hide Next;
  }

  lemma RunDone(g: Grammar, t: Tables, input: seq<Symbol>, c: Config)
    ensures RunFor(g, t, input, c, 0) == (Continue, c)
  {
  }

  class Parser {
    const g: Grammar
    const t: Tables
    const input: seq<Symbol>
    ghost const A: Automaton
    ghost const look: Lookaheads

    var statestack: seq<int>
    var symstack: seq<Symbol>
    var state: int
    var lookahead: Option<Symbol>
    var pos: int
    ghost var reductions: seq<int>

    constructor (g: Grammar, t: Tables, input: seq<Symbol>, ghost A: Automaton, ghost look: Lookaheads)
      requires TablesFor(g, A, look, t) && Tokens(g, input)
      ensures this.g == g && this.t == t && this.input == input && this.A == A && this.look == look
      ensures Valid() && Now() == Initial()
    {
      this.g, this.t, this.input, this.A, this.look := g, t, input, A, look;
      statestack, symstack, state := [0], [DollarEnd], 0;
      lookahead, pos, reductions := None, 0, [];
      new;
      assert Form(input, Now()) == input;
    }

    ghost function Now(): Config
      reads this
    {
      Config(statestack, symstack, lookahead, pos, reductions)
    }

    ghost predicate Valid()
      reads this
    {
      && TablesFor(g, A, look, t) && Tokens(g, input)
      && Sound(g, A, input, Now())
      && state == statestack[|statestack| - 1]
      && 0 <= state < |A.C| == |t.action| == |t.goto|
    }

    /** get_token(), with '$end' once the input is used up. */
    method Fetch()
      requires Valid()
      modifies this`lookahead, this`pos
      ensures Valid() && lookahead.Some? && Now() == Fetched(input, old(Now()))
    {
      hide Rightmost;
      hide IsPath;
      hide TablesFor;
      hide IsAutomaton;
      TableFacts(g, A, look, t);
      if lookahead.None? {
        FetchSound(g, A, input, Now());
        if pos < |input| {
          lookahead, pos := Some(input[pos]), pos + 1;
        } else {
          lookahead := Some(DollarEnd);
        }
      }
    }

    /** One round of the parser's loop; error recovery is not entered. */
    method Step() returns (outcome: Outcome)
      requires Valid()
      modifies this
      ensures Valid()
      ensures (outcome, Now()) == Next(g, t, input, old(Now()))
      ensures outcome == Accepted ==> |g.productions| > 0 && Rightmost(g, g.productions[0].prod, reductions, input)
      ensures outcome == Rejected ==> lookahead.Some? && !ActionFor(t, Now()).Act?
    {
      hide TablesFor;
      hide IsAutomaton;
      hide Fetched;
      hide Shifted;
      hide Reduced;
      hide Poppable;
      hide Next;
      hide Rightmost;
      ghost var before := Now();
      Fetch();
      TableFacts(g, A, look, t);
      ghost var c := Now();
      assert c.states != [] && c.states[|c.states| - 1] == state;
      assert Rightmost(g, Form(input, c), c.reductions, input);
      NextIs(g, t, input, before, c);
      hide IsPath;
      hide Sound;
      hide Reducible;
      hide Form;
      var row := t.action[state];
      var ltype := lookahead.value;
      if !(ltype in row && row[ltype].Act?) {
        return Rejected;
      }
      var n := row[ltype].n;
      if n > 0 {
        EntryShifts(g, A, look, t, input, c, n);
        ShiftToken(n);
        return Continue;
      }
      if n < 0 {
        EntryReduces(g, A, look, t, input, c, n);
        ReduceBy(-n);
        return Continue;
      }
      EntryAccepts(g, A, look, t, input, c);
      return Accepted;
    }

    method ShiftToken(n: int)
      requires Valid() && lookahead.Some? && lookahead.value in g.terminals
      requires (state, lookahead.value) in A.delta && n == A.delta[(state, lookahead.value)] && 0 <= n < |A.C|
      modifies this
      ensures Valid() && Now() == Shifted(old(Now()), n)
    {
      hide TablesFor;
      hide Rightmost;
      hide IsAutomaton;
      TableFacts(g, A, look, t);
      ShiftSound(g, A, input, Now(), n);
      statestack := statestack + [n];
      state := n;
      symstack := symstack + [lookahead.value];
      lookahead := None;
    }

    method ReduceBy(p: int)
      requires Valid() && lookahead.Some? && Reducible(g, A, Now(), p)
      modifies this
      ensures Valid() && Poppable(g, t, old(Now()), p) && Now() == Reduced(g, t, old(Now()), p)
    {
      hide TablesFor;
      hide Rightmost;
      hide IsAutomaton;
      TableFacts(g, A, look, t);
      var pname, plen := g.productions[p].name, |g.productions[p].prod|;
      ghost var c := Now();
      GotoExists(g, A, look, t, c, p);
      ReduceSound(g, A, input, c, p, t.goto[statestack[|statestack| - 1 - plen]][pname]);
      hide Sound;
      statestack := statestack[..|statestack| - plen];
      symstack := symstack[..|symstack| - plen];
      state := t.goto[statestack[|statestack| - 1]][pname];
      symstack := symstack + [pname];
      statestack := statestack + [state];
      reductions := reductions + [p];
    }

    /** The parser's loop, cut off after a number of rounds. */
    method Run(rounds: nat) returns (outcome: Outcome)
      requires Valid()
      modifies this
      ensures Valid() && (outcome, Now()) == RunFor(g, t, input, old(Now()), rounds)
      ensures outcome == Accepted ==> |g.productions| > 0 && Rightmost(g, g.productions[0].prod, reductions, input)
    {
      hide TablesFor;
      hide Sound;
      hide Rightmost;
      hide Next;
      hide RunFor;
      outcome := Continue;
      ghost var result := RunFor(g, t, input, Now(), rounds);
      var left: nat := rounds;
      while outcome == Continue && left > 0
        invariant Valid()
        invariant outcome == Continue ==> RunFor(g, t, input, Now(), left) == result
        invariant outcome != Continue ==> (outcome, Now()) == result
        invariant outcome == Accepted ==> |g.productions| > 0 && Rightmost(g, g.productions[0].prod, reductions, input)
      {
        RunUnfold(g, t, input, Now(), left);
        outcome := Step();
        left := left - 1;
      }
      RunDone(g, t, input, Now());
    }
  }

  /** If the loop accepts, the reductions made are a rightmost derivation of exactly the tokens given. */
  method Parse(g: Grammar, t: Tables, input: seq<Symbol>, ghost A: Automaton, ghost look: Lookaheads, rounds: nat)
    returns (outcome: Outcome, ghost reductions: seq<int>)
    requires TablesFor(g, A, look, t) && Tokens(g, input)
    ensures outcome == RunFor(g, t, input, Initial(), rounds).0
    ensures outcome == Accepted ==> Rightmost(g, g.productions[0].prod, reductions, input)
    ensures outcome == Accepted ==> g.Derives(g.productions[0].prod, input)
  {
    assert g.WellFormed();
    hide TablesFor;
    hide Rightmost;
    hide RunFor;
    var parser := new Parser(g, t, input, A, look);
    outcome := parser.Run(rounds);
    reductions := parser.reductions;
    if outcome == Accepted {
      RightmostDerives(g, g.productions[0].prod, reductions, input);
    }
  }

  /**
   * From grammar to verdict: whatever the lookaheads, a parser with generated tables accepts only what
   * the grammar derives.
   */
  method GenerateAndParse(g: Grammar, look: Lookaheads, input: seq<Symbol>, rounds: nat)
    returns (generated: bool, outcome: Outcome, ghost reductions: seq<int>)
    requires g.WellFormed() && Tokens(g, input)
    ensures generated && outcome == Accepted ==> Rightmost(g, g.productions[0].prod, reductions, input)
    ensures generated && outcome == Accepted ==> g.Derives(g.productions[0].prod, input)
  {
    var t;
    ghost var A;
    generated, t, A := ParseTable(g, look);
    outcome, reductions := Continue, [];
    if generated {
      outcome, reductions := Parse(g, t, input, A, look, rounds);
    }
  }
}
