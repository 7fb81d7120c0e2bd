/**
 * The LALR(1) lookaheads: transitions on nonterminals, the relations between them, and the sets
 * propagated along these.
 */
module Lookaheads {
  import opened Finite
  import opened Options
  import opened Grammar
  import opened LR0
  import opened LRTable
  import Digraph
  import Productive

  /** A state and a nonterminal that leads on from it. */
  type Trans = (int, Symbol)

  ghost predicate IsTrans(g: Grammar, A: Automaton, x: Trans) {
    x in A.delta && x.1 in g.nonterminals
  }

  // ----- the relations

  /** The state reached from st along word, or -1. */
  ghost function Along(A: Automaton, st: int, word: seq<Symbol>): int
    decreases |word|
  {
    if word == [] then st
    else
      var last := |word| - 1;
      var j := Along(A, st, word[..last]);
      if (j, word[last]) in A.delta then A.delta[(j, word[last])] else -1
  }

  /** DR: a can be shifted right after the transition, or the input ends after the start symbol. */
  ghost predicate DirectlyReads(g: Grammar, A: Automaton, x: Trans, a: Symbol) {
    x in A.delta && (
      || (a in g.terminals && (A.delta[x], a) in A.delta)
      || (a == DollarEnd && |g.productions| > 0 && x.0 == 0 && g.productions[0].prod == [x.1]))
  }

  /** READS: y is a transition right after x on a symbol that can vanish. */
  ghost predicate Reads(A: Automaton, nullable: set<Symbol>, x: Trans, y: Trans) {
    x in A.delta && y.0 == A.delta[x] && y.1 in nullable && y in A.delta
  }

  ghost predicate Vanishes(nullable: set<Symbol>, form: seq<Symbol>) {
    forall s :: s in form ==> s in nullable
  }

  /** An item of y's state for y's nonterminal, whatever the position of its dot. */
  ghost predicate ItemFor(g: Grammar, A: Automaton, y: Trans, it: Item) {
    0 <= y.0 < |A.C| && it in A.C[y.0] && ItemOf(g, it) && g.productions[it.number].name == y.1
  }

  /** The item leads from y's state to x's, x's symbol is next, and what follows it can vanish. */
  ghost predicate IncludesBy(g: Grammar, A: Automaton, nullable: set<Symbol>, x: Trans, y: Trans, it: Item, d: int) {
    && ItemFor(g, A, y, it)
    && var rhs := g.productions[it.number].prod;
    && it.dot <= d < |rhs| && IsTrans(g, A, x)
    && x == (Along(A, y.0, rhs[it.dot..d]), rhs[d])
    && Vanishes(nullable, rhs[d + 1..])
  }

  /** INCLUDES, as the source computes it. */
  ghost predicate Includes(g: Grammar, A: Automaton, nullable: set<Symbol>, x: Trans, y: Trans) {
    exists it, d :: IncludesBy(g, A, nullable, x, y, it, d)
  }

  /** The n-th entry of a right-hand side in which the dot takes up a place. */
  function Dotted(rhs: seq<Symbol>, dot: nat, n: nat): Option<Symbol>
    requires dot <= |rhs| && n <= |rhs|
  {
    if n < dot then Some(rhs[n]) else if n == dot then None else Some(rhs[n - 1])
  }

  /** The comparison of an item with one found at the end of its production. */
  ghost predicate SameRule(g: Grammar, it: Item, r: Item) {
    && ItemOf(g, it) && ItemOf(g, r)
    && var p, q := g.productions[it.number], g.productions[r.number];
    && p.name == q.name && |p.prod| == |q.prod|
    && forall i :: 0 <= i < r.dot ==> Dotted(p.prod, it.dot, i + 1) == Some(q.prod[i])
  }

  ghost predicate LookbackBy(g: Grammar, A: Automaton, y: Trans, e: (int, Item), it: Item) {
    && ItemFor(g, A, y, it)
    && e.0 == Along(A, y.0, g.productions[it.number].prod[it.dot..])
    && 0 <= e.0 < |A.C| && e.1 in A.C[e.0] && SameRule(g, it, e.1)
  }

  /** LOOKBACK: the item, in its state, stands at the end of a production that started at y. */
  ghost predicate Lookback(g: Grammar, A: Automaton, y: Trans, e: (int, Item)) {
    exists it :: LookbackBy(g, A, y, e, it)
  }

  // ----- moving along

  lemma AlongMore(A: Automaton, st: int, word: seq<Symbol>, x: Symbol)
    ensures var j := Along(A, st, word);
      Along(A, st, word + [x]) == if (j, x) in A.delta then A.delta[(j, x)] else -1
  {
    assert (word + [x])[..|word|] == word;
  }

  /** The symbol after the dot. */
  function NextSymbol(g: Grammar, it: Item): (x: Option<Symbol>)
    ensures forall y :: x == Some(y) <==> Before(g, it, y)
  {
    if it.number < |g.productions| && it.dot < |g.productions[it.number].prod|
    then Some(g.productions[it.number].prod[it.dot])
    else None
  }

  /** One of the first n items has x after the dot. */
  ghost predicate SomeBefore(g: Grammar, I: ItemSet, n: nat, x: Symbol)
    requires n <= |I|
  {
    exists i :: 0 <= i < n && Before(g, I[i], x)
  }

  lemma SomeBeforeStep(g: Grammar, I: ItemSet, n: nat)
    requires n < |I|
    ensures forall x :: SomeBefore(g, I, n + 1, x) <==> SomeBefore(g, I, n, x) || NextSymbol(g, I[n]) == Some(x)
  {
    hide Before;
  }

  lemma SomeBeforeAll(g: Grammar, A: Automaton, st: int)
    requires IsAutomaton(g, A) && 0 <= st < |A.C|
    ensures forall x :: SomeBefore(g, A.C[st], |A.C[st]|, x) <==> (st, x) in A.delta
  {
    hide IsAutomaton;
    hide Before;
    forall x ensures SomeBefore(g, A.C[st], |A.C[st]|, x) <==> (st, x) in A.delta {
      if (st, x) in A.delta {
        var it := WaitsFor(g, A, st, x);
        var i :| 0 <= i < |A.C[st]| && A.C[st][i] == it;
      }
      if i :| 0 <= i < |A.C[st]| && Before(g, A.C[st][i], x) {
        MovesOn(g, A, st, A.C[st][i], x);
      }
    }
  }

  // ----- collecting them

  /** find_nonterminal_transitions() */
  method FindTransitions(g: Grammar, ghost A: Automaton, C: seq<ItemSet>) returns (trans: seq<Trans>)
    requires IsAutomaton(g, A) && A.C == C
    ensures NoRepeats(trans) && forall x :: x in trans <==> IsTrans(g, A, x)
  {
    trans := [];
    hide IsAutomaton;
    forall x | IsTrans(g, A, x) ensures 0 <= x.0 < |C| {
      var it := WaitsFor(g, A, x.0, x.1);
    }
    for state := 0 to |C|
      invariant NoRepeats(trans)
      invariant forall x :: x in trans <==> x.0 < state && IsTrans(g, A, x)
    {
      trans := TransitionsOf(g, A, C, state, trans);
    }
  }

  method TransitionsOf(g: Grammar, ghost A: Automaton, C: seq<ItemSet>, state: nat, trans0: seq<Trans>)
    returns (trans: seq<Trans>)
    requires IsAutomaton(g, A) && A.C == C && state < |C| && NoRepeats(trans0)
    requires forall x :: x in trans0 <==> x.0 < state && IsTrans(g, A, x)
    ensures NoRepeats(trans)
    ensures forall x :: x in trans <==> x.0 <= state && IsTrans(g, A, x)
  {
    SomeBeforeAll(g, A, state);
    hide IsAutomaton;
    hide SomeBefore;
    hide NextSymbol;
    trans := trans0;
    SomeBeforeNone(g, C[state]);
    for k := 0 to |C[state]|
      invariant NoRepeats(trans)
      invariant forall x :: x in trans <==>
        x in trans0 || (x.0 == state && x.1 in g.nonterminals && SomeBefore(g, C[state], k, x.1))
    {
      SomeBeforeStep(g, C[state], k);
      var next := NextSymbol(g, C[state][k]);
      if next.Some? {
        var t := (state as int, next.value);
        if t.1 in g.nonterminals && t !in trans {
          trans := trans + [t];
        }
      }
    }
  }

  lemma SomeBeforeNone(g: Grammar, I: ItemSet)
    ensures forall x :: !SomeBefore(g, I, 0, x)
  {
  }

  /** dr_relation() */
  method DrRelation(coll: Collection, ghost A: Automaton, C: seq<ItemSet>, x: Trans) returns (terms: seq<Symbol>)
    requires Numbers(coll, A) && A.C == C && IsTrans(coll.g, A, x)
    modifies coll`trie, coll`memo
    ensures Numbers(coll, A)
    ensures forall a :: a in terms <==> DirectlyReads(coll.g, A, x, a)
  {
    hide Numbers;
    hide IsAutomaton;
    hide SomeBefore;
    hide NextSymbol;
    var g := coll.g;
    var I, j := GotoOf(coll, A, C, x.0, x.1);
    terms := [];
    SomeBeforeNone(g, I);
    for k := 0 to |I|
      invariant Numbers(coll, A)
      invariant forall a :: a in terms <==> a in g.terminals && SomeBefore(g, I, k, a)
    {
      SomeBeforeStep(g, I, k);
      var a := NextSymbol(g, I[k]);
      if a.Some? && a.value in g.terminals && a.value !in terms {
        terms := terms + [a.value];
      }
    }
    SomeBeforeAll(g, A, j);
    StartHasOne(g, A);
    if x.0 == 0 && x.1 == g.productions[0].prod[0] {
      terms := terms + [DollarEnd];
    }
  }

  lemma NumbersAutomaton(coll: Collection, A: Automaton)
    requires Numbers(coll, A)
    ensures IsAutomaton(coll.g, A) && coll.g.WellFormed()
  {
  }

  lemma StartHasOne(g: Grammar, A: Automaton)
    requires IsAutomaton(g, A)
    ensures |g.productions| > 0 && |g.productions[0].prod| == 1 && DollarEnd !in g.terminals
  {
  }

  /** The item set that goto makes, and its number. */
  method GotoOf(coll: Collection, ghost A: Automaton, C: seq<ItemSet>, st: int, x: Symbol) returns (I: ItemSet, j: int)
    requires Numbers(coll, A) && A.C == C && (st, x) in A.delta
    modifies coll`trie, coll`memo
    ensures Numbers(coll, A)
    ensures IsAutomaton(coll.g, A) && j == A.delta[(st, x)] && 0 <= st < |C| && 0 <= j < |C| && I == C[j]
  {
    assert Edge(coll.g, A, (st, x));
    assert GoodSet(coll.g, C[st]);
    I := coll.Goto(C[st], x);
    j := if I in coll.cidhash then coll.cidhash[I] else -1;
  }

  /** reads_relation() */
  method ReadsRelation(coll: Collection, ghost A: Automaton, C: seq<ItemSet>, x: Trans, empty: set<Symbol>)
    returns (rel: seq<Trans>)
    requires Numbers(coll, A) && A.C == C && IsTrans(coll.g, A, x)
    modifies coll`trie, coll`memo
    ensures Numbers(coll, A)
    ensures forall y :: y in rel <==> Reads(A, empty, x, y)
  {
    hide Numbers;
    hide IsAutomaton;
    hide SomeBefore;
    hide NextSymbol;
    var g := coll.g;
    var I, j := GotoOf(coll, A, C, x.0, x.1);
    rel := [];
    SomeBeforeNone(g, I);
    for k := 0 to |I|
      invariant Numbers(coll, A)
      invariant forall y :: y in rel <==> y.0 == j && y.1 in empty && SomeBefore(g, I, k, y.1)
    {
      SomeBeforeStep(g, I, k);
      var a := NextSymbol(g, I[k]);
      if a.Some? && a.value in empty {
        rel := rel + [(j, a.value)];
      }
    }
    SomeBeforeAll(g, A, j);
  }

  // ----- compute_lookback_includes()

  method RestVanishes(g: Grammar, rhs: seq<Symbol>, start: nat, nullable: set<Symbol>) returns (yes: bool)
    requires start <= |rhs| && nullable !! g.terminals
    ensures yes <==> Vanishes(nullable, rhs[start..])
  {
    var li := start;
    while li < |rhs| && rhs[li] !in g.terminals && rhs[li] in nullable
      invariant start <= li <= |rhs| && forall i :: start <= i < li ==> rhs[i] in nullable
    {
      li := li + 1;
    }
    yes := li == |rhs|;
    if !yes {
      assert rhs[start..][li - start] == rhs[li];
    }
  }

  method Matches(g: Grammar, p: Item, r: Item) returns (same: bool)
    requires ItemOf(g, p) && ItemOf(g, r)
    ensures same <==> SameRule(g, p, r)
  {
    var prod, other := g.productions[p.number].prod, g.productions[r.number].prod;
    if g.productions[r.number].name != g.productions[p.number].name || |other| != |prod| {
      return false;
    }
    var i := 0;
    while i < r.dot && Dotted(prod, p.dot, i + 1) == Some(other[i])
      invariant 0 <= i <= r.dot && forall h :: 0 <= h < i ==> Dotted(prod, p.dot, h + 1) == Some(other[h])
    {
      i := i + 1;
    }
    same := i == r.dot;
  }

  ghost predicate IncludedBefore(g: Grammar, A: Automaton, nullable: set<Symbol>, x: Trans, y: Trans, it: Item,
      n: int) {
    exists d :: d < n && IncludesBy(g, A, nullable, x, y, it, d)
  }

  lemma IncludedMore(g: Grammar, A: Automaton, nullable: set<Symbol>, x: Trans, y: Trans, it: Item, n: int)
    ensures IncludedBefore(g, A, nullable, x, y, it, n + 1) <==>
      IncludedBefore(g, A, nullable, x, y, it, n) || IncludesBy(g, A, nullable, x, y, it, n)
  {
    hide IncludesBy;
  }

  /** The production of p has been followed from y's state up to lrIndex, to state j, and these are the pairs found. */
  ghost predicate Following(g: Grammar, A: Automaton, nullable: set<Symbol>, y: Trans, p: Item, lrIndex: int, j: int,
      includes: seq<Trans>) {
    && ItemFor(g, A, y, p)
    && var rhs := g.productions[p.number].prod;
    && p.dot <= lrIndex <= |rhs| && 0 <= j < |A.C| && j == Along(A, y.0, rhs[p.dot..lrIndex])
    && Item(p.number, lrIndex) in A.C[j]
    && forall x :: x in includes <==> IncludedBefore(g, A, nullable, x, y, p, lrIndex)
  }

  lemma FollowingStart(g: Grammar, A: Automaton, nullable: set<Symbol>, y: Trans, p: Item)
    requires ItemFor(g, A, y, p)
    ensures Following(g, A, nullable, y, p, p.dot, y.0, [])
  {
    assert g.productions[p.number].prod[p.dot..p.dot] == [];
  }

  lemma FollowingStep(g: Grammar, A: Automaton, nullable: set<Symbol>, y: Trans, p: Item, lrIndex: int, j: int,
      includes: seq<Trans>)
    requires IsAutomaton(g, A) && Following(g, A, nullable, y, p, lrIndex, j, includes)
    requires lrIndex < |g.productions[p.number].prod|
    ensures var rhs := g.productions[p.number].prod;
      var x := (j, rhs[lrIndex]);
      && x in A.delta
      && Following(g, A, nullable, y, p, lrIndex + 1, A.delta[x],
           if x.1 in g.nonterminals && Vanishes(nullable, rhs[lrIndex + 1..]) then includes + [x] else includes)
  {
    hide IsAutomaton;
    hide Along;
    hide Vanishes;
    var rhs := g.productions[p.number].prod;
    var x := (j, rhs[lrIndex]);
    MovesOn(g, A, j, Item(p.number, lrIndex), rhs[lrIndex]);
    AlongMore(A, y.0, rhs[p.dot..lrIndex], rhs[lrIndex]);
    assert rhs[p.dot..lrIndex + 1] == rhs[p.dot..lrIndex] + [rhs[lrIndex]];
    var more := if x.1 in g.nonterminals && Vanishes(nullable, rhs[lrIndex + 1..]) then includes + [x] else includes;
    forall z ensures z in more <==> IncludedBefore(g, A, nullable, z, y, p, lrIndex + 1) {
      assert IncludesBy(g, A, nullable, z, y, p, lrIndex) <==>
        z == x && x.1 in g.nonterminals && Vanishes(nullable, rhs[lrIndex + 1..]);
      IncludedMore(g, A, nullable, z, y, p, lrIndex);
      hide IncludesBy;
      hide IncludedBefore;
    }
    assert Following(g, A, nullable, y, p, lrIndex + 1, A.delta[x], more);
  }

  lemma FollowingEnd(g: Grammar, A: Automaton, nullable: set<Symbol>, y: Trans, p: Item, j: int, includes: seq<Trans>)
    requires ItemOf(g, p) && Following(g, A, nullable, y, p, |g.productions[p.number].prod|, j, includes)
    ensures forall x :: x in includes <==> exists d :: IncludesBy(g, A, nullable, x, y, p, d)
    ensures j == Along(A, y.0, g.productions[p.number].prod[p.dot..])
  {
    var rhs := g.productions[p.number].prod;
    assert rhs[p.dot..|rhs|] == rhs[p.dot..];
  }

  lemma FollowingFacts(g: Grammar, A: Automaton, nullable: set<Symbol>, y: Trans, p: Item, lrIndex: int, j: int,
      includes: seq<Trans>)
    requires Following(g, A, nullable, y, p, lrIndex, j, includes)
    ensures ItemOf(g, p) && 0 <= lrIndex <= |g.productions[p.number].prod| && 0 <= j < |A.C|
  {
  }

  /** One item of a transition's state: the production is followed to its end. */
  method FollowItem(coll: Collection, ghost A: Automaton, C: seq<ItemSet>, y: Trans, p: Item, dtrans: set<Trans>,
      nullable: set<Symbol>)
    returns (includes: seq<Trans>, j: int)
    requires Numbers(coll, A) && A.C == C && ItemFor(coll.g, A, y, p) && nullable !! coll.g.terminals
    requires forall x :: x in dtrans <==> IsTrans(coll.g, A, x)
    modifies coll`trie, coll`memo
    ensures Numbers(coll, A)
    ensures forall x :: x in includes <==> exists d :: IncludesBy(coll.g, A, nullable, x, y, p, d)
    ensures 0 <= j < |C| && j == Along(A, y.0, coll.g.productions[p.number].prod[p.dot..])
  {
    hide Numbers;
    hide IsAutomaton;
    hide Following;
    hide Vanishes;
    hide ItemFor;
    hide IncludesBy;
    hide Along;
    NumbersAutomaton(coll, A);
    FollowingStart(coll.g, A, nullable, y, p);
    FollowingFacts(coll.g, A, nullable, y, p, p.dot, y.0, []);
    var g := coll.g;
    var rhs, lrIndex := g.productions[p.number].prod, p.dot;
    j := y.0;
    includes := [];
    while lrIndex < |rhs|
      invariant Numbers(coll, A)
      invariant 0 <= lrIndex <= |rhs| && 0 <= j < |C| && Following(g, A, nullable, y, p, lrIndex, j, includes)
    {
      var t := rhs[lrIndex];
      FollowingStep(g, A, nullable, y, p, lrIndex, j, includes);
      var rest := RestVanishes(g, rhs, lrIndex + 1, nullable);
      if (j, t) in dtrans && rest {
        includes := includes + [(j, t)];
      }
      var I;
      I, j := GotoOf(coll, A, C, j, t);
      lrIndex := lrIndex + 1;
    }
    FollowingEnd(g, A, nullable, y, p, j, includes);
  }

  ghost predicate LookbackAmong(g: Grammar, A: Automaton, y: Trans, e: (int, Item), items: seq<Item>) {
    exists k :: 0 <= k < |items| && LookbackBy(g, A, y, e, items[k])
  }

  ghost predicate IncludesAmong(g: Grammar, A: Automaton, nullable: set<Symbol>, x: Trans, y: Trans, items: seq<Item>) {
    exists k, d :: 0 <= k < |items| && IncludesBy(g, A, nullable, x, y, items[k], d)
  }

  /** The items of the last state that belong to the production of p. */
  method FindEnds(g: Grammar, ghost A: Automaton, C: seq<ItemSet>, ghost y: Trans, p: Item, j: int)
    returns (lookb: seq<(int, Item)>)
    requires IsAutomaton(g, A) && A.C == C && ItemFor(g, A, y, p)
    requires 0 <= j < |C| && j == Along(A, y.0, g.productions[p.number].prod[p.dot..])
    ensures forall e :: e in lookb <==> LookbackBy(g, A, y, e, p)
  {
    assert GoodSet(g, C[j]);
    hide IsAutomaton;
    hide Along;
    hide SameRule;
    lookb := [];
    for k := 0 to |C[j]|
      invariant forall e :: e in lookb <==> e.0 == j && e.1 in C[j][..k] && SameRule(g, p, e.1)
    {
      assert C[j][..k + 1] == C[j][..k] + [C[j][k]];
      var same := Matches(g, p, C[j][k]);
      if same {
        lookb := lookb + [(j, C[j][k])];
      }
    }
    assert C[j][..|C[j]|] == C[j];
  }

  /** lookb and includes for one transition. */
  method FollowTransition(coll: Collection, ghost A: Automaton, C: seq<ItemSet>, y: Trans, dtrans: set<Trans>,
      nullable: set<Symbol>)
    returns (lookb: seq<(int, Item)>, includes: seq<Trans>)
    requires Numbers(coll, A) && A.C == C && IsTrans(coll.g, A, y) && nullable !! coll.g.terminals
    requires forall x :: x in dtrans <==> IsTrans(coll.g, A, x)
    modifies coll`trie, coll`memo
    ensures Numbers(coll, A)
    ensures forall x :: x in includes <==> Includes(coll.g, A, nullable, x, y)
    ensures forall e :: e in lookb <==> Lookback(coll.g, A, y, e)
  {
    assert IsAutomaton(coll.g, A) && Edge(coll.g, A, y) && GoodSet(coll.g, C[y.0]);
    var g := coll.g;
    hide Numbers;
    hide IsAutomaton;
    hide IncludesBy;
    hide LookbackBy;
    hide IncludesAmong;
    hide LookbackAmong;
    lookb, includes := [], [];
    var items := C[y.0];
    AmongNone(g, A, nullable, y);
    assert items[..0] == [];
    for k := 0 to |items|
      invariant Numbers(coll, A)
      invariant forall x :: x in includes <==> IncludesAmong(g, A, nullable, x, y, items[..k])
      invariant forall e :: e in lookb <==> LookbackAmong(g, A, y, e, items[..k])
    {
      var p := items[k];
      assert items[..k + 1] == items[..k] + [p] && p in items;
      AmongMore(g, A, nullable, y, items[..k], p);
      if g.productions[p.number].name == y.1 {
        var found, j := FollowItem(coll, A, C, y, p, dtrans, nullable);
        var ends := FindEnds(g, A, C, y, p, j);
        includes := includes + found;
        lookb := lookb + ends;
      } else {
        NotForIt(g, A, nullable, y, p);
      }
    }
    assert items[..|items|] == items;
    AmongAll(g, A, nullable, y);
  }

  lemma NotForIt(g: Grammar, A: Automaton, nullable: set<Symbol>, y: Trans, p: Item)
    requires !ItemFor(g, A, y, p)
    ensures forall x, d :: !IncludesBy(g, A, nullable, x, y, p, d)
    ensures forall e :: !LookbackBy(g, A, y, e, p)
  {
  }

  lemma AmongNone(g: Grammar, A: Automaton, nullable: set<Symbol>, y: Trans)
    ensures forall x :: !IncludesAmong(g, A, nullable, x, y, [])
    ensures forall e :: !LookbackAmong(g, A, y, e, [])
  {
  }

  lemma AmongMore(g: Grammar, A: Automaton, nullable: set<Symbol>, y: Trans, items: seq<Item>, p: Item)
    ensures forall x :: IncludesAmong(g, A, nullable, x, y, items + [p]) <==>
      IncludesAmong(g, A, nullable, x, y, items) || exists d :: IncludesBy(g, A, nullable, x, y, p, d)
    ensures forall e ::
      LookbackAmong(g, A, y, e, items + [p]) <==> LookbackAmong(g, A, y, e, items) || LookbackBy(g, A, y, e, p)
  {
    hide IncludesBy;
    hide LookbackBy;
    var more := items + [p];
    assert more[|items|] == p;
    forall x ensures IncludesAmong(g, A, nullable, x, y, more) <==>
      IncludesAmong(g, A, nullable, x, y, items) || exists d :: IncludesBy(g, A, nullable, x, y, p, d)
    {
      if k, d :| 0 <= k < |items| && IncludesBy(g, A, nullable, x, y, items[k], d) {
        assert more[k] == items[k];
      }
    }
    forall e ensures LookbackAmong(g, A, y, e, more) <==>
        LookbackAmong(g, A, y, e, items) || LookbackBy(g, A, y, e, p) {
      if k :| 0 <= k < |items| && LookbackBy(g, A, y, e, items[k]) {
        assert more[k] == items[k];
      }
    }
  }

  lemma AmongAll(g: Grammar, A: Automaton, nullable: set<Symbol>, y: Trans)
    requires 0 <= y.0 < |A.C|
    ensures forall x :: IncludesAmong(g, A, nullable, x, y, A.C[y.0]) <==> Includes(g, A, nullable, x, y)
    ensures forall e :: LookbackAmong(g, A, y, e, A.C[y.0]) <==> Lookback(g, A, y, e)
  {
    var items := A.C[y.0];
    forall x ensures IncludesAmong(g, A, nullable, x, y, items) <==> Includes(g, A, nullable, x, y) {
      if it, d :| IncludesBy(g, A, nullable, x, y, it, d) {
        var k :| 0 <= k < |items| && items[k] == it;
      }
    }
    forall e ensures LookbackAmong(g, A, y, e, items) <==> Lookback(g, A, y, e) {
      if it :| LookbackBy(g, A, y, e, it) {
        var k :| 0 <= k < |items| && items[k] == it;
      }
    }
  }

  function Listed<K, V>(m: map<K, seq<V>>, k: K): seq<V> {
    if k in m then m[k] else []
  }

  /** included[i] gets (state, N) for each i in includes. */
  method AddIncludes(included0: map<Trans, seq<Trans>>, includes: seq<Trans>, y: Trans)
    returns (included: map<Trans, seq<Trans>>)
    ensures forall x, z :: z in Listed(included, x) <==> z in Listed(included0, x) || (z == y && x in includes)
  {
    included := included0;
    for k := 0 to |includes|
      invariant forall x, z :: z in Listed(included, x) <==> z in Listed(included0, x) || (z == y && x in includes[..k])
    {
      assert includes[..k + 1] == includes[..k] + [includes[k]];
      var i := includes[k];
      if i !in included {
        included := included[i := []];
      }
      included := included[i := included[i] + [y]];
    }
    assert includes[..|includes|] == includes;
  }

  /** lookdict has the lookbacks of the transitions in done. */
  ghost predicate LookDict(g: Grammar, A: Automaton, done: seq<Trans>, lookdict: map<Trans, seq<(int, Item)>>) {
    && (forall x :: x in lookdict <==> x in done)
    && forall y, e :: y in done ==> (e in lookdict[y] <==> Lookback(g, A, y, e))
  }

  /** includedict has the pairs of which the second is a transition in done, under the first. */
  ghost predicate IncludeDict(g: Grammar, A: Automaton, nullable: set<Symbol>, done: seq<Trans>,
      includedict: map<Trans, seq<Trans>>) {
    forall x, y :: y in Listed(includedict, x) <==> y in done && Includes(g, A, nullable, x, y)
  }

  lemma DictsMore(g: Grammar, A: Automaton, nullable: set<Symbol>, done: seq<Trans>, y: Trans, lookdict: map<Trans,
      seq<(int, Item)>>,
                  lookb: seq<(int, Item)>, included: map<Trans, seq<Trans>>, included': map<Trans, seq<Trans>>,
                    includes: seq<Trans>)
    requires LookDict(g, A, done, lookdict) && IncludeDict(g, A, nullable, done, included)
    requires forall x :: x in includes <==> Includes(g, A, nullable, x, y)
    requires forall e :: e in lookb <==> Lookback(g, A, y, e)
    requires forall x, z :: z in Listed(included', x) <==> z in Listed(included, x) || (z == y && x in includes)
    ensures LookDict(g, A, done + [y], lookdict[y := lookb]) && IncludeDict(g, A, nullable, done + [y], included')
  {
    hide Listed;
    hide Includes;
    hide Lookback;
    forall x, z ensures z in Listed(included', x) <==> z in done + [y] && Includes(g, A, nullable, x, z) {
    }
    forall z, e | z in done + [y] ensures e in lookdict[y := lookb][z] <==> Lookback(g, A, z, e) {
    }
  }

  lemma DictsNone(g: Grammar, A: Automaton, nullable: set<Symbol>)
    ensures LookDict(g, A, [], map[]) && IncludeDict(g, A, nullable, [], map[])
  {
  }

  /** compute_lookback_includes() */
  method LookbackIncludes(coll: Collection, ghost A: Automaton, C: seq<ItemSet>, trans: seq<Trans>,
      nullable: set<Symbol>)
    returns (lookdict: map<Trans, seq<(int, Item)>>, includedict: map<Trans, seq<Trans>>)
    requires Numbers(coll, A) && A.C == C && nullable !! coll.g.terminals
    requires forall x :: x in trans <==> IsTrans(coll.g, A, x)
    modifies coll`trie, coll`memo
    ensures Numbers(coll, A)
    ensures LookDict(coll.g, A, trans, lookdict)
    ensures IncludeDict(coll.g, A, nullable, trans, includedict)
  {
    var g := coll.g;
    hide Numbers;
    hide LookDict;
    hide IncludeDict;
    hide Includes;
    hide Lookback;
    hide Listed;
    lookdict, includedict := map[], map[];
    DictsNone(g, A, nullable);
    assert trans[..0] == [];
    var dtrans := set t | t in trans;
    for k := 0 to |trans|
      invariant Numbers(coll, A)
      invariant LookDict(g, A, trans[..k], lookdict) && IncludeDict(g, A, nullable, trans[..k], includedict)
    {
      assert trans[..k + 1] == trans[..k] + [trans[k]];
      var lookb, includes := FollowTransition(coll, A, C, trans[k], dtrans, nullable);
      var more := AddIncludes(includedict, includes, trans[k]);
      DictsMore(g, A, nullable, trans[..k], trans[k], lookdict, lookb, includedict, more, includes);
      includedict, lookdict := more, lookdict[trans[k] := lookb];
    }
    assert trans[..|trans|] == trans;
  }

  // ----- propagating sets along the relations

  type SetProblem = Digraph.Problem<Trans, Symbol>

  ghost predicate ReadProblem(g: Grammar, A: Automaton, nullable: set<Symbol>, trans: seq<Trans>, P: SetProblem) {
    && P.nodes == trans
    && (forall x, y :: x in trans ==> (y in P.rel(x) <==> Reads(A, nullable, x, y)))
    && (forall x, a :: x in trans ==> (a in P.base(x) <==> DirectlyReads(g, A, x, a)))
  }

  ghost predicate FollowProblem(g: Grammar, A: Automaton, nullable: set<Symbol>, trans: seq<Trans>, read: map<Trans,
      seq<Symbol>>, P: SetProblem) {
    && P.nodes == trans
    && (forall x, y :: x in trans ==> (y in P.rel(x) <==> y in trans && Includes(g, A, nullable, x, y)))
    && (forall x, a :: x in trans ==> (a in P.base(x) <==> x in read && a in read[x]))
  }

  /** Symbols that derive the empty form are nonterminals. */
  lemma NullableNonterminal(g: Grammar, x: Symbol)
    requires g.WellFormed() && g.Derives([x], [])
    ensures x in g.nonterminals
  {
    var n: nat :| g.DerivesIn([x], [], n);
    var c :| g.Step([x], c) && g.DerivesIn(c, [], n - 1);
    var i, p :| g.StepAt([x], c, i, p);
  }

  type Box = Digraph.Box<Symbol>

  /** What the lists hold. */
  ghost function Held(lists: map<Trans, Box>): (held: map<Trans, seq<Symbol>>)
    reads lists.Values
    ensures held.Keys == lists.Keys && forall x :: x in lists ==> held[x] == lists[x].items
  {
    map x | x in lists :: lists[x].items
  }

  /** Each transition of trans has a list of its own, with what it directly reads. */
  ghost predicate BaseLists(g: Grammar, A: Automaton, trans: seq<Trans>, held: map<Trans, seq<Symbol>>) {
    && (forall x :: x in held <==> x in trans)
    && (forall x, a :: x in held ==> (a in held[x] <==> DirectlyReads(g, A, x, a)))
  }

  /** The relation and the lists of direct reads are tabulated before the search. */
  method ReadTables(coll: Collection, ghost A: Automaton, C: seq<ItemSet>, trans: seq<Trans>, nullable: set<Symbol>)
    returns (rel: map<Trans, seq<Trans>>, given: map<Trans, Box>)
    requires Numbers(coll, A) && A.C == C
    requires forall x :: x in trans ==> IsTrans(coll.g, A, x)
    modifies coll`trie, coll`memo
    ensures Numbers(coll, A)
    ensures forall x, y :: x in trans ==> (y in Listed(rel, x) <==> Reads(A, nullable, x, y))
    ensures fresh(given.Values) && Digraph.Separate(given) && BaseLists(coll.g, A, trans, Held(given))
  {
    hide Numbers;
    hide Reads;
    hide DirectlyReads;
    rel, given := map[], map[];
    for k := 0 to |trans|
      invariant Numbers(coll, A)
      invariant forall x, y :: x in trans[..k] ==> (y in Listed(rel, x) <==> Reads(A, nullable, x, y))
      invariant fresh(given.Values) && Digraph.Separate(given) && BaseLists(coll.g, A, trans[..k], Held(given))
    {
      assert trans[..k + 1] == trans[..k] + [trans[k]];
      ghost var held := Held(given);
      var terms := DrRelation(coll, A, C, trans[k]);
      var next := ReadsRelation(coll, A, C, trans[k], nullable);
      var list := new Digraph.Box<Symbol>(terms);
      assert Held(given) == held;
      assert forall x :: x in given ==> given[x] in given.Values && given[x] != list;
      rel, given := rel[trans[k] := next], given[trans[k] := list];
      assert Held(given) == held[trans[k] := terms];
    }
    assert trans[..|trans|] == trans;
  }

  /** READS has no cycle but from a transition to itself. */
  ghost predicate SingleReads(P: SetProblem) {
    forall x, y :: x in P.nodes && y in P.nodes && Digraph.Twin(P, x, y) ==> x == y
  }

  /** Then the search leaves each transition with a list of its own. */
  lemma StillSeparate(P: SetProblem, lists: map<Trans, Box>, owner: map<Trans, Trans>, given: map<Trans, Box>)
    requires Digraph.Handed(lists, owner, given) && Digraph.Separate(given) && SingleReads(P)
    requires forall x :: Digraph.OwnedByTwin(P, owner, x)
    requires forall x :: x in lists ==> x in P.nodes
    ensures Digraph.Separate(lists)
  {
    hide Digraph.Twin;
    forall x, y | x in lists && y in lists && x != y ensures lists[x] != lists[y] {
      assert Digraph.OwnedByTwin(P, owner, x) && Digraph.OwnedByTwin(P, owner, y);
      assert owner[x] == x && owner[y] == y;
      Digraph.HandedIs(lists, owner, given, x);
      Digraph.HandedIs(lists, owner, given, y);
    }
  }

  /** compute_read_sets() */
  method ComputeReadSets(coll: Collection, ghost A: Automaton, C: seq<ItemSet>, trans: seq<Trans>,
      nullable: set<Symbol>)
    returns (lists: map<Trans, Box>, ghost read: map<Trans, seq<Symbol>>, ghost P: SetProblem)
    requires Numbers(coll, A) && A.C == C && |trans| < Digraph.MAXINT
    requires forall x :: x in trans <==> IsTrans(coll.g, A, x)
    requires forall x :: x in nullable ==> x in coll.g.nonterminals
    modifies coll`trie, coll`memo
    ensures Numbers(coll, A) && fresh(lists.Values)
    ensures Digraph.WellFormed(P) && ReadProblem(coll.g, A, nullable, trans, P) && Digraph.Solves(P, read)
    ensures forall x :: x in lists <==> x in trans
    ensures Held(lists) == read && (SingleReads(P) ==> Digraph.Separate(lists))
  {
    hide Numbers;
    hide Listed;
    hide DirectlyReads;
    hide Reads;
    hide IsTrans;
    hide ReadProblem;
    hide BaseLists;
    hide Digraph.WellFormed;
    hide Digraph.Solves;
    hide Digraph.Separate;
    hide SingleReads;
    var rel, given := ReadTables(coll, A, C, trans, nullable);
    ghost var held := Held(given);
    var related := x => Listed(rel, x);
    P := Digraph.Problem(trans, related, x => if x in held then held[x] else []);
    IsReadProblem(coll.g, A, nullable, trans, held, P);
    ghost var owner;
    lists, read, owner := Digraph.Digraph(trans, related, given, P);
    SolvedNodes(P, read);
    HandedFrom(lists, owner, given);
    if SingleReads(P) {
      StillSeparate(P, lists, owner, given);
    }
  }

  lemma IsReadProblem(g: Grammar, A: Automaton, nullable: set<Symbol>, trans: seq<Trans>, held: map<Trans, seq<Symbol>>,
      P: SetProblem)
    requires |trans| < Digraph.MAXINT && BaseLists(g, A, trans, held) && P.nodes == trans
    requires forall x :: x in trans <==> IsTrans(g, A, x)
    requires forall x :: x in nullable ==> x in g.nonterminals
    requires forall x, y :: x in trans ==> (y in P.rel(x) <==> Reads(A, nullable, x, y))
    requires forall x :: x in held ==> P.base(x) == held[x]
    ensures Digraph.WellFormed(P) && ReadProblem(g, A, nullable, trans, P)
    ensures held.Keys == (set x | x in P.nodes)
  {
    hide DirectlyReads;
    forall x, y | x in trans && y in P.rel(x) ensures y in trans {
      assert IsTrans(g, A, y);
    }
  }

  lemma SolvedNodes(P: SetProblem, read: map<Trans, seq<Symbol>>)
    requires Digraph.Solves(P, read)
    ensures forall x :: x in read <==> x in P.nodes
  {
  }

  lemma HandedFrom(lists: map<Trans, Box>, owner: map<Trans, Trans>, given: map<Trans, Box>)
    requires Digraph.Handed(lists, owner, given)
    ensures lists.Values <= given.Values
  {
    forall x | x in lists ensures lists[x] in given.Values {
      Digraph.HandedIs(lists, owner, given, x);
    }
  }

  /** The lists hold at least the sets, and exactly these if each transition had a list of its own. */
  ghost predicate Holds(lists: map<Trans, seq<Symbol>>, sets: map<Trans, seq<Symbol>>, exact: bool) {
    && lists.Keys == sets.Keys
    && (forall x :: x in sets ==> Digraph.Within(sets[x], lists[x]))
    && (exact ==> lists == sets)
  }

  /** compute_follow_sets(): the lists of the Read sets themselves are handed out, and appended to. */
  method ComputeFollowSets(g: Grammar, ghost A: Automaton, ghost nullable: set<Symbol>, trans: seq<Trans>,
      read: map<Trans, Box>, included: map<Trans, seq<Trans>>)
    returns (lists: map<Trans, Box>, ghost follow: map<Trans, seq<Symbol>>, ghost P: SetProblem)
    requires |trans| < Digraph.MAXINT && IncludeDict(g, A, nullable, trans, included)
    requires forall x :: x in read <==> x in trans
    modifies read.Values
    ensures Digraph.WellFormed(P) && FollowProblem(g, A, nullable, trans, old(Held(read)), P)
    ensures Digraph.Solves(P, follow) && Holds(Held(lists), follow, Digraph.Separate(read))
  {
    hide Includes;
    hide Digraph.Solves;
    hide Digraph.Separate;
    ghost var held := Held(read);
    var related := x => Listed(included, x);
    P := Digraph.Problem(trans, related, x => if x in held then held[x] else []);
    ghost var owner;
    lists, follow, owner := Digraph.Digraph(trans, related, read, P);
    if Digraph.Separate(read) {
      assert Held(lists) == follow;
    }
  }

  // ----- add_lookaheads()

  /** The lookaheads attached to an item in a state, after the transitions in done. */
  ghost predicate Attached(trans: seq<Trans>, lookdict: map<Trans, seq<(int, Item)>>, follow: map<Trans, seq<Symbol>>,
                           m: map<(int, Item), seq<Symbol>>) {
    && (forall e :: e in m <==> exists y :: y in trans && e in Listed(lookdict, y))
    && (forall e, a ::
       e in m ==> (a in m[e] <==> exists y :: y in trans && e in Listed(lookdict, y) && a in Listed(follow, y)))
  }

  /** What item e in its state has after f was added for the entries in lb. */
  ghost predicate AddedTo(m0: map<(int, Item), seq<Symbol>>, lb: seq<(int, Item)>, f: seq<Symbol>, m: map<(int, Item),
      seq<Symbol>>, e: (int, Item)) {
    && (e in m <==> e in m0 || e in lb)
    && (e in m ==> forall a :: a in m[e] <==> (e in m0 && a in m0[e]) || (e in lb && a in f))
  }

  /** for state, p in lb */
  method AddFor(m0: map<(int, Item), seq<Symbol>>, lb: seq<(int, Item)>, f: seq<Symbol>)
    returns (m: map<(int, Item), seq<Symbol>>)
    ensures forall e :: AddedTo(m0, lb, f, m, e)
  {
    m := m0;
    for k := 0 to |lb|
      invariant forall e :: AddedTo(m0, lb[..k], f, m, e)
    {
      assert lb[..k + 1] == lb[..k] + [lb[k]];
      var e := lb[k];
      ghost var before := m;
      assert AddedTo(m0, lb[..k], f, before, e);
      if e !in m {
        m := m[e := []];
      }
      var merged := Merge(m[e], f);
      m := m[e := merged];
      ghost var part := lb[..k + 1];
      forall z ensures AddedTo(m0, part, f, m, z) {
        assert AddedTo(m0, lb[..k], f, before, z);
      }
    }
    assert lb[..|lb|] == lb;
  }

  /** for a in f: append it unless it is there */
  method Merge(xs: seq<Symbol>, f: seq<Symbol>) returns (merged: seq<Symbol>)
    ensures forall a :: a in merged <==> a in xs || a in f
  {
    merged := xs;
    for k := 0 to |f|
      invariant forall a :: a in merged <==> a in xs || a in f[..k]
    {
      assert f[..k + 1] == f[..k] + [f[k]];
      if f[k] !in merged {
        merged := merged + [f[k]];
      }
    }
    assert f[..|f|] == f;
  }

  method AddLookaheads(trans: seq<Trans>, lookdict: map<Trans, seq<(int, Item)>>, lists: map<Trans, Box>)
    returns (m: map<(int, Item), seq<Symbol>>)
    ensures Attached(trans, lookdict, Held(lists), m)
  {
    hide Listed;
    hide Attached;
    m := map[];
    ghost var follow := Held(lists);
    AttachedNone(lookdict, follow);
    assert trans[..0] == [];
    for k := 0 to |trans|
      invariant Attached(trans[..k], lookdict, follow, m)
    {
      assert trans[..k + 1] == trans[..k] + [trans[k]];
      ListedItems(lists, trans[k]);
      var f := if trans[k] in lists then lists[trans[k]].items else [];
      var more := AddFor(m, Listed(lookdict, trans[k]), f);
      AttachedMore(trans[..k], trans[k], lookdict, follow, m, more);
      m := more;
    }
    assert trans[..|trans|] == trans;
  }

  lemma ListedItems(lists: map<Trans, Box>, x: Trans)
    ensures Listed(Held(lists), x) == if x in lists then lists[x].items else []
  {
  }

  lemma AttachedNone(lookdict: map<Trans, seq<(int, Item)>>, follow: map<Trans, seq<Symbol>>)
    ensures Attached([], lookdict, follow, map[])
  {
  }

  lemma AttachedMore(done: seq<Trans>, y: Trans, lookdict: map<Trans, seq<(int, Item)>>, follow: map<Trans,
      seq<Symbol>>,
                     m: map<(int, Item), seq<Symbol>>, m': map<(int, Item), seq<Symbol>>)
    requires Attached(done, lookdict, follow, m)
    requires forall e :: AddedTo(m, Listed(lookdict, y), Listed(follow, y), m', e)
    ensures Attached(done + [y], lookdict, follow, m')
  {
    hide Listed;
    var more := done + [y];
    assert y in more && forall z :: z in done ==> z in more;
    forall e ensures e in m' <==> exists z :: z in more && e in Listed(lookdict, z) {
      assert AddedTo(m, Listed(lookdict, y), Listed(follow, y), m', e);
    }
    forall e, a | e in m'
      ensures a in m'[e] <==> exists z :: z in more && e in Listed(lookdict, z) && a in Listed(follow, z) {
      assert AddedTo(m, Listed(lookdict, y), Listed(follow, y), m', e);
      if z :| z in done && e in Listed(lookdict, z) && a in Listed(follow, z) {
        assert z in more && e in m;
      }
    }
  }

  // ----- add_lalr_lookaheads()

  /** What the lookaheads were computed from. */
  datatype Sets = Sets(trans: seq<Trans>, nullable: set<Symbol>, alongReads: SetProblem, read: map<Trans, seq<Symbol>>,
                       alongIncludes: SetProblem, follow: map<Trans, seq<Symbol>>, lists: map<Trans, seq<Symbol>>,
                       lookdict: map<Trans, seq<(int, Item)>>)

  ghost predicate Lalr(g: Grammar, A: Automaton, s: Sets, m: map<(int, Item), seq<Symbol>>) {
    && (forall x :: x in s.trans <==> IsTrans(g, A, x))
    && (forall x :: x in s.nullable <==> g.Derives([x], []))
    && Digraph.WellFormed(s.alongReads) && ReadProblem(g, A, s.nullable, s.trans, s.alongReads)
       && Digraph.Solves(s.alongReads, s.read)
    && Digraph.WellFormed(s.alongIncludes) && FollowProblem(g, A, s.nullable, s.trans, s.read, s.alongIncludes)
       && Digraph.Solves(s.alongIncludes, s.follow)
    && Holds(s.lists, s.follow, SingleReads(s.alongReads))
    && LookDict(g, A, s.trans, s.lookdict)
    && Attached(s.trans, s.lookdict, s.lists, m)
  }

  /** The sets and the lookaheads, given the transitions and the symbols that can vanish. */
  method LalrSets(coll: Collection, ghost A: Automaton, C: seq<ItemSet>, trans: seq<Trans>, nullable: set<Symbol>)
    returns (m: map<(int, Item), seq<Symbol>>, ghost s: Sets)
    requires Numbers(coll, A) && A.C == C && |trans| < Digraph.MAXINT
    requires (forall x :: x in trans <==> IsTrans(coll.g, A, x)) && forall x ::
      x in nullable <==> coll.g.Derives([x], [])
    requires nullable !! coll.g.terminals && forall x :: x in nullable ==> x in coll.g.nonterminals
    modifies coll`trie, coll`memo
    ensures Numbers(coll, A) && Lalr(coll.g, A, s, m)
  {
    hide Numbers;
    hide Grammar.Derives;
    hide ReadProblem;
    hide FollowProblem;
    hide LookDict;
    hide IncludeDict;
    hide Attached;
    hide IsTrans;
    hide Digraph.Solves;
    hide Digraph.WellFormed;
    hide Digraph.Separate;
    hide SingleReads;
    hide Holds;
    ghost var alongReads, alongIncludes, read, follow;
    var readLists, lists;
    readLists, read, alongReads := ComputeReadSets(coll, A, C, trans, nullable);
    var lookdict, included := LookbackIncludes(coll, A, C, trans, nullable);
    lists, follow, alongIncludes := ComputeFollowSets(coll.g, A, nullable, trans, readLists, included);
    HoldsLess(Held(lists), follow, Digraph.Separate(readLists), SingleReads(alongReads));
    m := AddLookaheads(trans, lookdict, lists);
    s := Sets(trans, nullable, alongReads, read, alongIncludes, follow, Held(lists), lookdict);
  }

  /** Fails only for more transitions than the mark of closed nodes can count. */
  method AddLalrLookaheads(coll: Collection, ghost A: Automaton, C: seq<ItemSet>)
    returns (ok: bool, m: map<(int, Item), seq<Symbol>>, ghost s: Sets)
    requires Numbers(coll, A) && A.C == C
    modifies coll`trie, coll`memo
    ensures Numbers(coll, A)
    ensures ok ==> Lalr(coll.g, A, s, m)
    ensures !ok ==> |s.trans| >= Digraph.MAXINT && NoRepeats(s.trans)
    ensures !ok ==> forall x :: x in s.trans ==> IsTrans(coll.g, A, x)
  {
    hide Numbers;
    hide IsAutomaton;
    hide Lalr;
    NumbersAutomaton(coll, A);
    var nullable := Productive.ComputeNullable(coll.g);
    forall x | x in nullable ensures x in coll.g.nonterminals {
      NullableNonterminal(coll.g, x);
    }
    NotTerminals(coll.g, nullable);
    var trans := FindTransitions(coll.g, A, C);
    ok, m := |trans| < Digraph.MAXINT, map[];
    if ok {
      m, s := LalrSets(coll, A, C, trans, nullable);
    } else {
      var none: SetProblem := Digraph.Problem([], x => [], x => []);
      s := Sets(trans, nullable, none, map[], none, map[], map[], map[]);
    }
  }

  lemma HoldsLess(lists: map<Trans, seq<Symbol>>, sets: map<Trans, seq<Symbol>>, exact: bool, stronger: bool)
    requires Holds(lists, sets, exact) && (stronger ==> exact)
    ensures Holds(lists, sets, stronger)
  {
  }

  lemma NotTerminals(g: Grammar, nullable: set<Symbol>)
    requires g.WellFormed() && forall x :: x in nullable ==> x in g.nonterminals
    ensures nullable !! g.terminals
  {
  }
}
