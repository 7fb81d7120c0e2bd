/** Conflicts between any number of items where no precedence is declared: shifts win, then the rule defined first. */
module DefaultEntries {
  import opened Options
  import opened Grammar
  import opened LR0
  import opened LRTable
  import PrecedenceOrder
  import LRParser

  /** The line on which the rule of an item is defined. */
  ghost function LineOf(g: Grammar, it: Item): int {
    if it.number < |g.productions| then g.productions[it.number].line else 0
  }

  /** At i stands the rule that is defined first, and of those on one line the one heard first. */
  ghost predicate FirstAt(g: Grammar, heard: seq<Item>, i: int) {
    && 0 <= i < |heard|
    && (forall k :: 0 <= k < i ==> LineOf(g, heard[k]) > LineOf(g, heard[i]))
    && (forall k :: i <= k < |heard| ==> LineOf(g, heard[k]) >= LineOf(g, heard[i]))
  }

  /** An item's rule has the precedence of a rule for which none is declared. */
  ghost predicate Undeclared(g: Grammar, it: Item) {
    it.number < |g.productions| && g.productions[it.number].prec.assoc == Right
      && g.productions[it.number].prec.level == 0
  }

  ghost predicate Offered(g: Grammar, A: Automaton, st: int, a: Symbol, heard: seq<Item>, n: int) {
    exists it :: it in heard && Offer(g, A, st, it, a) == n
  }

  /** Some item accepts. */
  ghost predicate Accepts(g: Grammar, A: Automaton, st: int, a: Symbol, heard: seq<Item>) {
    Offered(g, A, st, a, heard, 0)
  }

  /** All that shift go to state j. */
  ghost predicate ShiftsTo(g: Grammar, A: Automaton, st: int, a: Symbol, heard: seq<Item>, j: int) {
    j > 0 && forall it :: it in heard && Offer(g, A, st, it, a) > 0 ==> Offer(g, A, st, it, a) == j
  }

  /** What items come to where nothing is declared for a or their rules. */
  ghost predicate Chosen(g: Grammar, A: Automaton, st: int, a: Symbol, heard: seq<Item>, j: int, c: Cell) {
    && (c.item.Some? <==> heard != []) && (c.item.Some? ==> c.item.value in heard)
    && (c.entry.Some? <==> heard != [])
    && (Accepts(g, A, st, a, heard) ==> c.entry == Some(Act(0)))
    && (!Accepts(g, A, st, a, heard) && Offered(g, A, st, a, heard, j) ==> c.entry == Some(Act(j)))
    && (!Accepts(g, A, st, a, heard) && !Offered(g, A, st, a, heard, j) && heard != [] ==>
          exists i :: FirstAt(g, heard, i) && c.item == Some(heard[i])
                      && c.entry == Some(Act(Offer(g, A, st, heard[i], a))))
  }

  lemma OfferedMore(g: Grammar, A: Automaton, st: int, a: Symbol, heard: seq<Item>, it: Item, n: int)
    ensures Offered(g, A, st, a, heard + [it], n) <==>
      Offered(g, A, st, a, heard, n) || Offer(g, A, st, it, a) == n
  {
    hide Offer;
    assert forall x :: x in heard + [it] <==> x in heard || x == it;
  }

  /** One more reduction among reductions: the earlier line wins, and on one line the one heard first. */
  lemma FirstMore(g: Grammar, heard: seq<Item>, it: Item, i: int)
    requires FirstAt(g, heard, i)
    ensures LineOf(g, heard[i]) > LineOf(g, it) ==> FirstAt(g, heard + [it], |heard|)
    ensures LineOf(g, heard[i]) <= LineOf(g, it) ==> FirstAt(g, heard + [it], i)
  {
  }

  lemma ChosenMore(g: Grammar, A: Automaton, st: int, a: Symbol, heard: seq<Item>, it: Item, j: int, c: Cell)
    requires a !in g.precedence && Undeclared(g, it) && forall x :: x in heard ==> Undeclared(g, x)
    requires ShiftsTo(g, A, st, a, heard + [it], j) && Chosen(g, A, st, a, heard, j, c)
    requires Hear(g, c, it, a, Offer(g, A, st, it, a)).Some?
    ensures Chosen(g, A, st, a, heard + [it], j, Hear(g, c, it, a, Offer(g, A, st, it, a)).value)
  {
    hide Offer;
    var more, d := heard + [it], Hear(g, c, it, a, Offer(g, A, st, it, a)).value;
    OfferedMore(g, A, st, a, heard, it, 0);
    OfferedMore(g, A, st, a, heard, it, j);
    assert it in more && forall x :: x in heard ==> x in more;
    if heard == [] {
      assert FirstAt(g, more, 0);
    } else if !Accepts(g, A, st, a, more) && !Offered(g, A, st, a, more, j) {
      var i :| FirstAt(g, heard, i) && c.item == Some(heard[i]) && c.entry == Some(Act(Offer(g, A, st, heard[i], a)));
      FirstMore(g, heard, it, i);
    }
  }

  lemma {:induction false} SettlesByDefault(g: Grammar, A: Automaton, st: int, a: Symbol, heard: seq<Item>, j: int)
    requires a !in g.precedence && forall x :: x in heard ==> Undeclared(g, x)
    requires ShiftsTo(g, A, st, a, heard, j) && Settle(g, A, st, a, heard).Some?
    ensures Chosen(g, A, st, a, heard, j, Settle(g, A, st, a, heard).value)
    decreases |heard|
  {
    hide Offer;
    hide Undeclared;
    hide Hear;
    if heard != [] {
      var last := |heard| - 1;
      assert heard == heard[..last] + [heard[last]];
      SettlesByDefault(g, A, st, a, heard[..last], j);
      ChosenMore(g, A, st, a, heard[..last], heard[last], j, Settle(g, A, st, a, heard[..last]).value);
    }
  }

  /** The rules of all items that have something to say about a, and a itself, are without a declared precedence. */
  ghost predicate NothingDeclared(g: Grammar, A: Automaton, look: Lookaheads, st: int, a: Symbol) {
    && a !in g.precedence
    && 0 <= st < |A.C| && forall it :: it in A.C[st] && Proposes(g, look, st, it, a) ==> Undeclared(g, it)
  }

  /** Some item of the state shifts a. */
  ghost predicate CanShift(g: Grammar, A: Automaton, st: int, a: Symbol) {
    0 <= st < |A.C| && a in g.terminals && exists it :: it in A.C[st] && Before(g, it, a)
  }

  /** Item it reduces facing a. */
  ghost predicate CanReduce(g: Grammar, A: Automaton, look: Lookaheads, st: int, it: Item, a: Symbol) {
    0 <= st < |A.C| && it in A.C[st] && it.number > 0 && IsComplete(g, it) && a in look(st, it)
  }

  lemma HeardFacts(g: Grammar, A: Automaton, look: Lookaheads, st: int, a: Symbol, it: Item)
    requires IsAutomaton(g, A) && 0 <= st < |A.C| && it in For(Offers(g, look, st, A.C[st]), a)
    ensures it in A.C[st] && Proposes(g, look, st, it, a)
    ensures Offer(g, A, st, it, a) > 0 ==> (st, a) in A.delta && Offer(g, A, st, it, a) == A.delta[(st, a)]
    ensures Offer(g, A, st, it, a) > 0 <==> a in g.terminals && Before(g, it, a)
    ensures Offer(g, A, st, it, a) < 0 <==> CanReduce(g, A, look, st, it, a)
    ensures Offer(g, A, st, it, a) < 0 ==> Offer(g, A, st, it, a) == 0 - it.number
    ensures Offer(g, A, st, it, a) == 0 <==> it.number == 0 && IsComplete(g, it)
  {
    hide IsAutomaton;
    hide Offers;
    hide For;
    HeardAre(g, look, st, A.C[st], it, a);
    OfferKinds(g, A, look, st, it, a);
  }

  lemma TargetOf(g: Grammar, A: Automaton, look: Lookaheads, st: int, a: Symbol)
    returns (j: int)
    requires IsAutomaton(g, A) && 0 <= st < |A.C|
    ensures ShiftsTo(g, A, st, a, For(Offers(g, look, st, A.C[st]), a), j)
    ensures CanShift(g, A, st, a) <==> Offered(g, A, st, a, For(Offers(g, look, st, A.C[st]), a), j)
    ensures CanShift(g, A, st, a) ==> (st, a) in A.delta && j == A.delta[(st, a)]
  {
    hide IsAutomaton;
    hide Offers;
    hide For;
    hide Offer;
    var heard := For(Offers(g, look, st, A.C[st]), a);
    j := if (st, a) in A.delta then A.delta[(st, a)] else 1;
    if (st, a) in A.delta {
      LRParser.EdgeFact(g, A, st, a);
    }
    forall it | it in heard && Offer(g, A, st, it, a) > 0 ensures Offer(g, A, st, it, a) == j && CanShift(g, A, st, a) {
      HeardFacts(g, A, look, st, a, it);
    }
    if CanShift(g, A, st, a) {
      var it :| it in A.C[st] && Before(g, it, a);
      HeardAre(g, look, st, A.C[st], it, a);
      HeardFacts(g, A, look, st, a, it);
    }
  }

  /**
   * Where nothing is declared, whatever items are at odds over a token and in
   * whatever order: a shift is preferred to any reduction, and of reductions the
   * one by the rule that is defined first is made.
   */
  lemma EntryByDefault(g: Grammar, A: Automaton, look: Lookaheads, t: Tables, st: int, a: Symbol)
    requires TablesFor(g, A, look, t) && NothingDeclared(g, A, look, st, a) && a in g.terminals
    ensures CanShift(g, A, st, a) ==>
      (st, a) in A.delta && a in t.action[st] && t.action[st][a] == Act(A.delta[(st, a)])
    ensures !CanShift(g, A, st, a) && a in t.action[st] ==>
      exists it :: CanReduce(g, A, look, st, it, a) && t.action[st][a] == Act(0 - it.number)
        && forall other :: CanReduce(g, A, look, st, other, a) ==> LineOf(g, it) <= LineOf(g, other)
    ensures !CanShift(g, A, st, a) && a !in t.action[st] ==> forall it :: !CanReduce(g, A, look, st, it, a)
  {
    hide TablesFor;
    hide IsAutomaton;
    hide Offers;
    hide For;
    hide Offer;
    hide Settle;
    LRParser.TableFacts(g, A, look, t);
    var heard := For(Offers(g, look, st, A.C[st]), a);
    PrecedenceOrder.RowHolds(g, A, look, t, st, a);
    var j := TargetOf(g, A, look, st, a);
    forall it | it in heard ensures Undeclared(g, it) && Offer(g, A, st, it, a) != 0 {
      HeardFacts(g, A, look, st, a, it);
      OfferKinds(g, A, look, st, it, a);
    }
    SettlesByDefault(g, A, st, a, heard, j);
    var c := Settle(g, A, st, a, heard).value;
    if !CanShift(g, A, st, a) && a in t.action[st] {
      var i :| FirstAt(g, heard, i) && c.entry == Some(Act(Offer(g, A, st, heard[i], a)));
      LeastLine(g, A, look, st, a, heard, i);
    }
    forall it | CanReduce(g, A, look, st, it, a) ensures it in heard {
      HeardAre(g, look, st, A.C[st], it, a);
    }
  }

  lemma LeastLine(g: Grammar, A: Automaton, look: Lookaheads, st: int, a: Symbol, heard: seq<Item>, i: int)
    requires IsAutomaton(g, A) && g.WellFormed() && 0 <= st < |A.C| && heard == For(Offers(g, look, st, A.C[st]), a)
    requires FirstAt(g, heard, i) && a in g.terminals && !CanShift(g, A, st, a)
    ensures CanReduce(g, A, look, st, heard[i], a) && Offer(g, A, st, heard[i], a) == 0 - heard[i].number
    ensures forall other :: CanReduce(g, A, look, st, other, a) ==> LineOf(g, heard[i]) <= LineOf(g, other)
  {
    hide IsAutomaton;
    hide Offers;
    hide For;
    hide Offer;
    HeardFacts(g, A, look, st, a, heard[i]);
    OfferKinds(g, A, look, st, heard[i], a);
    forall other | CanReduce(g, A, look, st, other, a) ensures LineOf(g, heard[i]) <= LineOf(g, other) {
      HeardAre(g, look, st, A.C[st], other, a);
      var k :| 0 <= k < |heard| && heard[k] == other;
    }
  }
}
