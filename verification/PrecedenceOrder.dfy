/** Conflicts settled by precedence: what the order of the items in a state has to do with it. */
module PrecedenceOrder {
  import opened Finite
  import opened Options
  import opened Grammar
  import opened LR0
  import opened LRTable
  import opened LRParser
  import opened LRComplete
  import opened Lookaheads
  import opened LALR

  /** r offers to reduce, s to shift. */
  ghost predicate Rivals(g: Grammar, A: Automaton, st: int, a: Symbol, r: Item, s: Item) {
    Offer(g, A, st, r, a) < 0 < Offer(g, A, st, s, a)
  }

  ghost function Reduction(g: Grammar, A: Automaton, st: int, a: Symbol, r: Item): Cell {
    Cell(Some(Act(Offer(g, A, st, r, a))), Some(r))
  }

  function PrecOfRule(g: Grammar, it: Item): Prec {
    PrecOfItem(g, Some(it))
  }

  /**
   * Met after the reduction, a shift is weighed against the rule; met before it, against the
   * production it belongs to.
   */
  lemma TwoOffers(g: Grammar, A: Automaton, st: int, a: Symbol, r: Item, s: Item)
    requires Rivals(g, A, st, a, r, s)
    ensures Settle(g, A, st, a, [r, s]) ==
      Some(Decide(ShiftLate(PrecOfRule(g, r), PrecOf(g, a)), Reduction(g, A, st, a, r), Reduction(g, A, st, a, s),
        Shifts))
    ensures Settle(g, A, st, a, [s, r]) ==
      Some(Decide(ReduceLate(PrecOfRule(g, s), PrecOf(g, a)), Reduction(g, A, st, a, s), Reduction(g, A, st, a, r),
        Reduces))
  {
    hide Offer;
    SettleOne(g, A, st, a, r);
    SettleOne(g, A, st, a, s);
    SettleMore(g, A, st, a, [r], s);
    SettleMore(g, A, st, a, [s], r);
    assert [r] + [s] == [r, s] && [s] + [r] == [s, r];
  }

  lemma SettleOne(g: Grammar, A: Automaton, st: int, a: Symbol, it: Item)
    ensures Settle(g, A, st, a, [it]) == Some(Reduction(g, A, st, a, it))
  {
    hide Offer;
    SettleMore(g, A, st, a, [], it);
    assert [] + [it] == [it];
  }

  /** The shift wins over a reduction that is met later. */
  predicate KeepsShift(shifted: Prec, token: Prec) {
    shifted.level > token.level || (shifted.level == token.level && token.assoc == Right)
  }

  /** The reduction that is met later wins. */
  predicate YieldsShift(shifted: Prec, token: Prec) {
    shifted.level < token.level || (shifted.level == token.level && token.assoc == Left)
  }

  /**
   * When both orders come to the same: where the token is higher, or equal and
   * the rule right-associative, the shifted production must be higher than the
   * token, or equal and the token right-associative; and so on. The precedence
   * of the rule decides only one side of it.
   */
  predicate OrdersAgree(shifted: Prec, rule: Prec, token: Prec) {
    if token.level > rule.level then KeepsShift(shifted, token)
    else if token.level < rule.level then YieldsShift(shifted, token)
    else if rule.assoc == Right then KeepsShift(shifted, token)
    else if rule.assoc == Left then YieldsShift(shifted, token)
    else shifted.level == token.level && token.assoc == NonAssoc
  }

  /** The entry does not depend on the order of the two items exactly under that condition. */
  lemma OrderAgrees(g: Grammar, A: Automaton, st: int, a: Symbol, r: Item, s: Item)
    requires Rivals(g, A, st, a, r, s)
    ensures Settle(g, A, st, a, [r, s]).Some? && Settle(g, A, st, a, [s, r]).Some?
    ensures Settle(g, A, st, a, [r, s]).value.entry == Settle(g, A, st, a, [s, r]).value.entry <==>
      OrdersAgree(PrecOfRule(g, s), PrecOfRule(g, r), PrecOf(g, a))
  {
    hide Offer;
    hide Settle;
    TwoOffers(g, A, st, a, r, s);
  }

  /** With the shift first, the rule's own precedence plays no part. */
  lemma RuleIgnored(g: Grammar, A: Automaton, st: int, a: Symbol, r1: Item, r2: Item, s: Item)
    requires Rivals(g, A, st, a, r1, s) && Rivals(g, A, st, a, r2, s)
    ensures Settle(g, A, st, a, [s, r1]).Some? && Settle(g, A, st, a, [s, r2]).Some?
    ensures Settle(g, A, st, a, [s, r1]).value.entry == Some(Act(Offer(g, A, st, r1, a))) <==>
      Settle(g, A, st, a, [s, r2]).value.entry == Some(Act(Offer(g, A, st, r2, a)))
  {
    hide Offer;
    hide Settle;
    TwoOffers(g, A, st, a, r1, s);
    TwoOffers(g, A, st, a, r2, s);
  }

  /**
   * The precedence in force for a token: as declared, and right-associative at the lowest level
   * without a declaration.
   */
  ghost predicate InForce(g: Grammar, a: Symbol, token: Prec) {
    if a in g.precedence then token == g.precedence[a] else token.assoc == Right && token.level == 0
  }

  /**
   * What a finished table holds where exactly two items of a state are at odds. If
   * the reduction is heard first, the rule to reduce is weighed against the token:
   * the higher level wins, and on a tie the rule's associativity says which. If
   * the shift is heard first, the rule being shifted is, and on a tie the token's
   * associativity says which.
   */
  lemma ConflictEntry(g: Grammar, A: Automaton, look: LRTable.Lookaheads, t: Tables, st: int, a: Symbol, r: Item,
      s: Item, token: Prec)
    requires TablesFor(g, A, look, t) && 0 <= st < |A.C| && Rivals(g, A, st, a, r, s) && InForce(g, a, token)
    requires var heard := For(Offers(g, look, st, A.C[st]), a); heard == [r, s] || heard == [s, r]
    ensures a in t.action[st] && r.number < |g.productions| && s.number < |g.productions|
    ensures var first := if For(Offers(g, look, st, A.C[st]), a) == [r, s] then r else s;
      var rule := g.productions[first.number].prec;
      var tie := if first == r then rule.assoc else token.assoc;
      var shift, reduce := Act(A.delta[(st, a)]), Act(0 - r.number);
      && (st, a) in A.delta
      && (token.level > rule.level ==> t.action[st][a] == if first == r then shift else reduce)
      && (token.level < rule.level ==> t.action[st][a] == if first == r then reduce else shift)
      && (token.level == rule.level ==>
            t.action[st][a] == match tie case Left => reduce case Right => shift case NonAssoc => Blocked)
  {
    hide TablesFor;
    hide IsAutomaton;
    hide Offers;
    hide For;
    hide Settle;
    hide Proposes;
    hide Offer;
    var heard := For(Offers(g, look, st, A.C[st]), a);
    assert r in heard && s in heard;
    HeardAre(g, look, st, A.C[st], r, a);
    HeardAre(g, look, st, A.C[st], s, a);
    TableFacts(g, A, look, t);
    OfferKinds(g, A, look, st, r, a);
    OfferKinds(g, A, look, st, s, a);
    ReductionIs(g, A, st, a, r);
    TwoOffers(g, A, st, a, r, s);
    RowHolds(g, A, look, t, st, a);
  }

  lemma ReductionIs(g: Grammar, A: Automaton, st: int, a: Symbol, it: Item)
    requires IsComplete(g, it)
    ensures Offer(g, A, st, it, a) == 0 - it.number
  {
  }

  /** An error entered for a nonassociative tie is forgotten when one more item has something to say. */
  lemma ErrorForgotten(g: Grammar, A: Automaton, st: int, a: Symbol, heard: seq<Item>, it: Item)
    requires Settle(g, A, st, a, heard).Some? && Settle(g, A, st, a, heard).value.entry == Some(Blocked)
    ensures Settle(g, A, st, a, heard + [it]) == Some(Reduction(g, A, st, a, it))
  {
    hide Offer;
    SettleMore(g, A, st, a, heard, it);
  }

  /** Accepting takes the place of whatever was entered before; and nothing more may be said after it but that. */
  lemma AcceptWins(g: Grammar, A: Automaton, st: int, a: Symbol, heard: seq<Item>, accept: Item, it: Item)
    requires Settle(g, A, st, a, heard).Some? && Offer(g, A, st, accept, a) == 0
    ensures Settle(g, A, st, a, heard + [accept]) == Some(Reduction(g, A, st, a, accept))
    ensures Offer(g, A, st, it, a) != 0 ==> Settle(g, A, st, a, heard + [accept] + [it]) == None
  {
    hide Offer;
    SettleMore(g, A, st, a, heard, accept);
    SettleMore(g, A, st, a, heard + [accept], it);
  }

  // ----- a table that shifts where the rule binds tighter

  /** S : a e | a E e    E : (nothing), with a precedence above that of e */
  function Tighter(): Grammar {
    var low, high := Prec(Right, 1), Prec(Right, 2);
    Grammar([Production(AugStart, [Name("S")], Prec(Right, 0), 0),
             Production(Name("S"), [Name("a"), Name("e")], low, 1),
             Production(Name("S"), [Name("a"), Name("E"), Name("e")], low, 2),
             Production(Name("E"), [], high, 3)],
            {Name("a"), Name("e")}, [Name("S"), Name("E")], map[Name("e") := low, Name("high") := high])
  }

  ghost predicate TighterRules(g: Grammar) {
    && g.WellFormed() && |g.productions| == 4
    && g.productions[0].prod == [Name("S")]
    && g.productions[1].name == Name("S") && g.productions[1].prod == [Name("a"), Name("e")]
    && g.productions[2].name == Name("S") && g.productions[2].prod == [Name("a"), Name("E"), Name("e")]
    && g.productions[3].name == Name("E") && g.productions[3].prod == []
    && g.productions[1].prec == Prec(Right, 1) && g.productions[3].prec == Prec(Right, 2)
    && PrecOf(g, Name("e")) == Prec(Right, 1)
    && g.terminals == {Name("a"), Name("e")} && g.nonterminals == [Name("S"), Name("E")]
  }

  lemma TighterHas()
    ensures TighterRules(Tighter())
  {
  }

  /** The state after a. */
  ghost predicate AfterA(g: Grammar, A: Automaton, st: int) {
    && (0, Name("a")) in A.delta && A.delta[(0, Name("a"))] == st && 0 <= st < |A.C|
    && Item(1, 0) in A.C[0] && Item(2, 0) in A.C[0]
    && Item(1, 1) in A.C[st] && Item(2, 1) in A.C[st] && Item(3, 0) in A.C[st]
    && (st, Name("E")) in A.delta && (A.delta[(st, Name("E"))], Name("e")) in A.delta && (st, Name("e")) in A.delta
  }

  lemma FindAfterA(g: Grammar, A: Automaton) returns (st: int)
    requires IsAutomaton(g, A) && TighterRules(g)
    ensures AfterA(g, A, st)
  {
    hide IsAutomaton;
    FirstItem(g, A);
    StartItem(g, A, Item(0, 0), 1);
    StartItem(g, A, Item(0, 0), 2);
    MovesOn(g, A, 0, Item(1, 0), Name("a"));
    MovesOn(g, A, 0, Item(2, 0), Name("a"));
    st := A.delta[(0, Name("a"))];
    TargetClosed(g, A, (0, Name("a")), Item(2, 1), 3);
    MovesOn(g, A, st, Item(2, 1), Name("E"));
    MovesOn(g, A, A.delta[(st, Name("E"))], Item(2, 2), Name("e"));
    MovesOn(g, A, st, Item(1, 1), Name("e"));
  }

  lemma FirstItem(g: Grammar, A: Automaton)
    requires IsAutomaton(g, A)
    ensures |A.C| > 0 && Item(0, 0) in A.C[0]
  {
    assert A.C[0][0] == Item(0, 0);
  }

  /** e is a lookahead of the empty rule there. */
  lemma EmptyRuleLooks(g: Grammar, A: Automaton, s: Sets, m: map<(int, Item), seq<Symbol>>, st: int)
    requires IsAutomaton(g, A) && TighterRules(g) && Lalr(g, A, s, m) && AfterA(g, A, st)
    ensures Name("e") in LookOf(m)(st, Item(3, 0))
  {
    hide IsAutomaton;
    hide Lalr;
    hide Grammar.WellFormed;
    hide ProperFollow;
    var x, e := (st, Name("E")), Name("e");
    assert IsTrans(g, A, x) && DirectlyReads(g, A, x, e);
    ReadsDirect(g, A, s, m, x, e);
    ProperBase(g, A, s, m, x, e);
    ProperWithin(g, A, s, m, x, e);
    LooksBack(g, A, x, st, 3);
    AttachedWhere(g, A, s, m, x, (st, Item(3, 0)));
  }

  // what is offered for e there, in the order of the items

  lemma {:induction false} ForJoin(x: seq<(Item, Symbol)>, y: seq<(Item, Symbol)>, a: Symbol)
    ensures For(x + y, a) == For(x, a) + For(y, a)
    decreases |y|
  {
    if y == [] {
      assert x + y == x && For(x, a) + [] == For(x, a);
    } else {
      var last := |y| - 1;
      assert (x + y)[..|x + y| - 1] == x + y[..last];
      ForJoin(x, y[..last], a);
    }
  }

  lemma {:induction false} ForPairs(it: Item, looks: seq<Symbol>, a: Symbol)
    ensures forall r :: r in For(Pairs(it, looks), a) ==> r == it
    decreases |looks|
  {
    if looks != [] {
      var last := |looks| - 1;
      ForPairs(it, looks[..last], a);
      ForMore(Pairs(it, looks[..last]), it, looks[last], a);
    }
  }

  lemma NoOffers(g: Grammar, look: LRTable.Lookaheads, st: int)
    ensures For(Offers(g, look, st, []), Name("e")) == []
  {
  }

  lemma OffersMore(g: Grammar, look: LRTable.Lookaheads, st: int, items: seq<Item>, it: Item, a: Symbol)
    ensures For(Offers(g, look, st, items + [it]), a) == For(Offers(g, look, st, items), a)
      + For(ItemOffers(g, look, st, it), a)
  {
    assert (items + [it])[..|items|] == items;
    ForJoin(Offers(g, look, st, items), ItemOffers(g, look, st, it), a);
  }

  /** What moving over a makes of the rules of S. */
  predicate Moved(it: Item) {
    it == Item(1, 1) || it == Item(2, 1)
  }

  predicate AllMoved(items: seq<Item>) {
    forall i :: 0 <= i < |items| ==> Moved(items[i])
  }

  predicate AllEmptyRule(items: seq<Item>) {
    forall i :: 0 <= i < |items| ==> items[i] == Item(3, 0)
  }

  /** The first two kinds of items offer to shift e, or nothing; the third offers reductions. */
  lemma Offered(g: Grammar, look: LRTable.Lookaheads, st: int, it: Item)
    requires TighterRules(g) && (Moved(it) || it == Item(3, 0))
    ensures var heard := For(ItemOffers(g, look, st, it), Name("e"));
      && (it == Item(1, 1) ==> heard == [it])
      && (it == Item(2, 1) ==> heard == [])
      && (it == Item(3, 0) ==> forall r :: r in heard ==> r == it)
  {
    if it == Item(1, 1) {
      ForMore([], it, Name("e"), Name("e"));
      assert [] + [(it, Name("e"))] == [(it, Name("e"))];
    }
    if it == Item(3, 0) {
      ForPairs(it, look(st, it), Name("e"));
    }
  }

  /** The shift first, then only reductions by the empty rule. */
  ghost predicate ShiftFirst(heard: seq<Item>) {
    heard != [] && heard[0] == Item(1, 1) && forall i :: 1 <= i < |heard| ==> heard[i] == Item(3, 0)
  }

  lemma ShiftFirstMore(heard: seq<Item>, more: seq<Item>)
    requires ShiftFirst(heard) && forall r :: r in more ==> r == Item(3, 0)
    ensures ShiftFirst(heard + more)
  {
    forall i | 1 <= i < |heard + more| ensures (heard + more)[i] == Item(3, 0) {
      if i >= |heard| {
        assert more[i - |heard|] in more;
      }
    }
  }

  /** The items that come from the first state, in any order. */
  lemma {:induction false} KernelOffers(g: Grammar, look: LRTable.Lookaheads, st: int, items: seq<Item>)
    requires TighterRules(g) && NoRepeats(items) && AllMoved(items)
    ensures For(Offers(g, look, st, items), Name("e")) == if Item(1, 1) in items then [Item(1, 1)] else []
    decreases |items|
  {
    hide Offers;
    hide ItemOffers;
    hide For;
    hide TighterRules;
    if items == [] {
      NoOffers(g, look, st);
    } else {
      var last := |items| - 1;
      assert items == items[..last] + [items[last]];
      KernelOffers(g, look, st, items[..last]);
      Offered(g, look, st, items[last]);
      OffersMore(g, look, st, items[..last], items[last], Name("e"));
    }
  }

  lemma {:induction false} ClosureOffers(g: Grammar, look: LRTable.Lookaheads, st: int, K: seq<Item>, more: seq<Item>)
    requires TighterRules(g) && ShiftFirst(For(Offers(g, look, st, K), Name("e"))) && AllEmptyRule(more)
    ensures ShiftFirst(For(Offers(g, look, st, K + more), Name("e")))
    decreases |more|
  {
    hide Offers;
    hide ItemOffers;
    hide For;
    hide TighterRules;
    if more == [] {
      assert K + more == K;
    } else {
      var last := |more| - 1;
      ClosureOffers(g, look, st, K, more[..last]);
      Offered(g, look, st, Item(3, 0));
      assert K + more == K + more[..last] + [more[last]];
      OffersMore(g, look, st, K + more[..last], more[last], Name("e"));
      ShiftFirstMore(For(Offers(g, look, st, K + more[..last]), Name("e")),
        For(ItemOffers(g, look, st, more[last]), Name("e")));
    }
  }

  /** In the state after a, the items moved over a come first, and the others are the empty rule's. */
  lemma StateShape(g: Grammar, A: Automaton, st: int) returns (K: seq<Item>, more: seq<Item>)
    requires IsAutomaton(g, A) && TighterRules(g) && AfterA(g, A, st)
    ensures A.C[st] == K + more && NoRepeats(K) && Item(1, 1) in K
    ensures AllMoved(K) && AllEmptyRule(more)
  {
    hide IsAutomaton;
    hide Grammar.WellFormed;
    hide Kernel;
    FirstTransition(g, A, st);
    var J := A.C[st];
    K := Kernel(g, A.C[0], Name("a"));
    KernelDistinct(g, A.C[0], Name("a"));
    forall i | 0 <= i < |K| ensures Moved(K[i]) {
      KernelItems(g, A.C[0], Name("a"), K[i]);
    }
    KernelItems(g, A.C[0], Name("a"), Item(1, 1));
    more := J[|K|..];
    forall k | |K| <= k < |J| ensures J[k] == Item(3, 0) {
      AddedAre(g, K, J, k);
    }
  }

  lemma FirstTransition(g: Grammar, A: Automaton, st: int)
    requires IsAutomaton(g, A) && AfterA(g, A, st)
    ensures var K := Kernel(g, A.C[0], Name("a")); K <= A.C[st] && IsClosure(g, K, A.C[st]) && NoRepeats(A.C[0])
  {
    assert Edge(g, A, (0, Name("a"))) && GoodSet(g, A.C[0]);
  }

  lemma {:induction false} AddedAre(g: Grammar, K: seq<Item>, J: seq<Item>, k: int)
    requires TighterRules(g) && IsClosure(g, K, J) && |K| <= k < |J|
    requires AllMoved(K)
    ensures J[k] == Item(3, 0)
    decreases k
  {
    hide Grammar.WellFormed;
    assert Justified(g, J, k);
    var i :| 0 <= i < k && J[k].number in After(g, J[i]);
    if i < |K| {
      assert J[i] == K[i] && Moved(K[i]);
    } else {
      AddedAre(g, K, J, i);
    }
  }

  /** The shift stays whatever reductions by the empty rule come after it. */
  lemma {:induction false} ShiftStays(g: Grammar, A: Automaton, st: int, heard: seq<Item>)
    requires TighterRules(g) && ShiftFirst(heard)
    requires Rivals(g, A, st, Name("e"), Item(3, 0), Item(1, 1))
    ensures Settle(g, A, st, Name("e"), heard) == Some(Reduction(g, A, st, Name("e"), Item(1, 1)))
    decreases |heard|
  {
    hide Offer;
    var last := |heard| - 1;
    if last == 0 {
      assert heard == [Item(1, 1)];
      SettleOne(g, A, st, Name("e"), Item(1, 1));
    } else {
      ShiftStays(g, A, st, heard[..last]);
    }
  }

  /**
   * In every table generated for this grammar some state has e as a lookahead of
   * the empty rule, which binds tighter than e, and shifts e all the same. Met
   * in the other order the same two offers come to the reduction.
   */
  lemma ShiftsThoughTighter(A: Automaton, s: Sets, m: map<(int, Item), seq<Symbol>>, t: Tables) returns (st: int)
    requires Lalr(Tighter(), A, s, m) && TablesFor(Tighter(), A, LookOf(m), t)
    ensures 0 <= st < |A.C| && Item(3, 0) in A.C[st] && Name("e") in LookOf(m)(st, Item(3, 0))
    ensures Tighter().productions[3].prec.level > PrecOf(Tighter(), Name("e")).level
    ensures Name("e") in t.action[st] && t.action[st][Name("e")].Act? && t.action[st][Name("e")].n > 0
    ensures Settle(Tighter(), A, st, Name("e"), [Item(3, 0), Item(1, 1)]) == Some(Cell(Some(Act(-3)), Some(Item(3, 0))))
  {
    hide Lalr;
    hide ActionRow;
    hide GotoRow;
    hide SettledRow;
    hide IsAutomaton;
    TighterHas();
    hide Tighter;
    var g, look, e := Tighter(), LookOf(m), Name("e");
    st := FindAfterA(g, A);
    EmptyRuleLooks(g, A, s, m, st);
    EdgeFact(g, A, st, e);
    assert Rivals(g, A, st, e, Item(3, 0), Item(1, 1));
    TwoOffers(g, A, st, e, Item(3, 0), Item(1, 1));
    var K, more := StateShape(g, A, st);
    KernelOffers(g, look, st, K);
    ClosureOffers(g, look, st, K, more);
    hide Settle;
    hide Offers;
    hide For;
    ShiftStays(g, A, st, For(Offers(g, look, st, A.C[st]), e));
    RowHolds(g, A, look, t, st, e);
  }

  lemma RowHolds(g: Grammar, A: Automaton, look: LRTable.Lookaheads, t: Tables, st: int, a: Symbol)
    requires TablesFor(g, A, look, t) && 0 <= st < |A.C|
    ensures |t.action| == |A.C| && EntryHolds(t.action[st], a, Settle(g, A, st, a,
      For(Offers(g, look, st, A.C[st]), a)))
  {
    hide ActionRow;
    hide GotoRow;
    hide IsAutomaton;
    hide Offers;
    hide For;
    hide Settle;
    assert SettledRow(g, A, look, st, t.action[st]);
  }
}
