/** The ACTION and GOTO tables, with conflicts resolved by precedence as the generator does it. */
module LRTable {
  import opened Options
  import opened Grammar
  import opened LR0

  /** The automaton behind the tables: item sets and their transitions, by number. */
  datatype Automaton = Automaton(C: seq<ItemSet>, delta: map<(int, Symbol), int>)

  ghost predicate IsAutomaton(g: Grammar, A: Automaton) {
    && g.WellFormed()
    && |A.C| > 0 && IsClosure(g, [Item(0, 0)], A.C[0])
    && (forall k :: 0 <= k < |A.C| ==> GoodSet(g, A.C[k]))
    && (forall st, x :: 0 <= st < |A.C| && Kernel(g, A.C[st], x) != [] ==> (st, x) in A.delta)
    && (forall key :: key in A.delta ==> Edge(g, A, key))
  }

  /** delta maps key to the item set that goto makes of key's state and symbol, never to the first. */
  ghost predicate Edge(g: Grammar, A: Automaton, key: (int, Symbol))
    requires key in A.delta
  {
    && 0 <= key.0 < |A.C| && Kernel(g, A.C[key.0], key.1) != []
    && 1 <= A.delta[key] < |A.C|
    && Transition(g, A.C[key.0], key.1, A.C[A.delta[key]])
  }

  /** A dot moves over the symbol after it, along a transition. */
  lemma MovesOn(g: Grammar, A: Automaton, st: int, it: Item, x: Symbol)
    requires IsAutomaton(g, A) && 0 <= st < |A.C| && it in A.C[st] && Before(g, it, x)
    ensures (st, x) in A.delta && 0 <= A.delta[(st, x)] < |A.C| && Item(it.number, it.dot + 1) in A.C[A.delta[(st, x)]]
  {
    var moved := Item(it.number, it.dot + 1);
    KernelItems(g, A.C[st], x, moved);
    var K := Kernel(g, A.C[st], x);
    assert moved in K && (st, x) in A.delta && Edge(g, A, (st, x));
    var J := A.C[A.delta[(st, x)]];
    assert Transition(g, A.C[st], x, J) && K <= J;
    var i :| 0 <= i < |K| && K[i] == moved;
    assert J[i] == moved;
  }

  /** Where a transition on x leads on, an item waits for x. */
  lemma WaitsFor(g: Grammar, A: Automaton, st: int, x: Symbol) returns (it: Item)
    requires IsAutomaton(g, A) && (st, x) in A.delta
    ensures 0 <= st < |A.C| && it in A.C[st] && Before(g, it, x)
  {
    assert Edge(g, A, (st, x));
    var moved := Kernel(g, A.C[st], x)[0];
    KernelItems(g, A.C[st], x, moved);
    it := Item(moved.number, moved.dot - 1);
  }

  /** An entry of st_action: None is stored for a non-associative conflict. */
  datatype Entry = Blocked | Act(n: int)

  datatype Row = Row(action: map<Symbol, Entry>, actionp: map<Symbol, Item>) {
    /** st_action.get(a, None) is not None */
    predicate Has(a: Symbol) {
      a in action && action[a].Act?
    }

    function Set(a: Symbol, n: int, it: Item): Row {
      Row(action[a := Act(n)], actionp[a := it])
    }

    function Block(a: Symbol): Row {
      Row(action[a := Blocked], actionp)
    }
  }

  /** The lookaheads of a complete item in a state: Follow for SLR, the computed sets for LALR. */
  type Lookaheads = (int, Item) -> seq<Symbol>

  predicate IsComplete(g: Grammar, it: Item) {
    it.number < |g.productions| && it.dot == |g.productions[it.number].prod|
  }

  /** Item it of state st has something to say about symbol a. */
  ghost predicate Proposes(g: Grammar, look: Lookaheads, st: int, it: Item, a: Symbol) {
    if IsComplete(g, it) then if it.number == 0 then a == DollarEnd else a in look(st, it)
    else a in g.terminals && Before(g, it, a)
  }

  /** What it says: 0 accepts, a negative number reduces, a positive one shifts. */
  ghost function Offer(g: Grammar, A: Automaton, st: int, it: Item, a: Symbol): int {
    if IsComplete(g, it) then 0 - it.number
    else if (st, a) in A.delta then A.delta[(st, a)] else 0
  }

  // ----- resolving conflicts

  datatype Decision = Shifts | Reduces | Errors

  function PrecOf(g: Grammar, a: Symbol): Prec {
    if a in g.precedence then g.precedence[a] else Prec(Right, 0)
  }

  /** The shift is met after the reduction by a rule: the rule's precedence against the token's. */
  function ShiftLate(rule: Prec, token: Prec): Decision {
    if token.level > rule.level || (token.level == rule.level && rule.assoc == Right) then Shifts
    else if token.level == rule.level && rule.assoc == NonAssoc then Errors
    else Reduces
  }

  /** The reduction is met after a shift: the precedence read is that of the rule being shifted in. */
  function ReduceLate(shifted: Prec, token: Prec): Decision {
    if shifted.level < token.level || (shifted.level == token.level && token.assoc == Left) then Reduces
    else if shifted.level == token.level && token.assoc == NonAssoc then Errors
    else Shifts
  }

  // ----- what a sequence of offers makes of an entry

  /** The entry for one symbol, with the item it came from. */
  datatype Cell = Cell(entry: Option<Entry>, item: Option<Item>)

  function PrecOfItem(g: Grammar, it: Option<Item>): Prec {
    if it.Some? && it.value.number < |g.productions| then g.productions[it.value.number].prec else Prec(Right, 0)
  }

  function LineOfItem(g: Grammar, it: Option<Item>): int {
    if it.Some? && it.value.number < |g.productions| then g.productions[it.value.number].line else 0
  }

  function Decide(d: Decision, keep: Cell, take: Cell, onTake: Decision): Cell {
    if d == Errors then Cell(Some(Blocked), keep.item) else if d == onTake then take else keep
  }

  /** One more offer n, of item it, for symbol a. None is the error that ends the generation. */
  function Hear(g: Grammar, c: Cell, it: Item, a: Symbol, n: int): Option<Cell> {
    var take := Cell(Some(Act(n)), Some(it));
    if n == 0 || c.entry.None? || c.entry.value.Blocked? then Some(take)
    else if c.entry.value.n == 0 then None
    else if c.entry.value.n > 0 && n > 0 then if c.entry.value.n == n then Some(c) else None
    else if c.entry.value.n > 0 then Some(Decide(ReduceLate(PrecOfItem(g, c.item), PrecOf(g, a)), c, take, Reduces))
    else if n > 0 then Some(Decide(ShiftLate(PrecOfItem(g, c.item), PrecOf(g, a)), c, take, Shifts))
    else if LineOfItem(g, c.item) > LineOfItem(g, Some(it)) then Some(take)
    else Some(c)
  }

  /** The offers of items for a, heard in order. */
  ghost function Settle(g: Grammar, A: Automaton, st: int, a: Symbol, items: seq<Item>): Option<Cell> {
    if items == [] then Some(Cell(None, None))
    else
      var last := |items| - 1;
      var c := Settle(g, A, st, a, items[..last]);
      if c.None? then None else Hear(g, c.value, items[last], a, Offer(g, A, st, items[last], a))
  }

  /** Which items offered something for a, in order. */
  ghost function For(done: seq<(Item, Symbol)>, a: Symbol): seq<Item> {
    if done == [] then []
    else
      var last := |done| - 1;
      For(done[..last], a) + (if done[last].1 == a then [done[last].0] else [])
  }

  lemma ForMore(done: seq<(Item, Symbol)>, it: Item, a: Symbol, b: Symbol)
    ensures For(done + [(it, a)], b) == For(done, b) + (if a == b then [it] else [])
  {
    assert (done + [(it, a)])[..|done|] == done;
  }

  /** A complete item offers in the order of its lookaheads. */
  ghost function Pairs(it: Item, looks: seq<Symbol>): seq<(Item, Symbol)> {
    if looks == [] then [] else Pairs(it, looks[..|looks| - 1]) + [(it, looks[|looks| - 1])]
  }

  ghost function ItemOffers(g: Grammar, look: Lookaheads, st: int, it: Item): seq<(Item, Symbol)> {
    if IsComplete(g, it) then if it.number == 0 then [(it, DollarEnd)] else Pairs(it, look(st, it))
    else if it.number < |g.productions| && it.dot < |g.productions[it.number].prod|
      && g.productions[it.number].prod[it.dot] in g.terminals
    then [(it, g.productions[it.number].prod[it.dot])]
    else []
  }

  /** All offers of a state, in the order in which the generator hears them. */
  ghost function Offers(g: Grammar, look: Lookaheads, st: int, items: seq<Item>): seq<(Item, Symbol)> {
    if items == [] then [] else Offers(g, look, st, items[..|items| - 1]) + ItemOffers(g, look, st, items[|items| - 1])
  }

  lemma {:induction false} InPairs(it: Item, looks: seq<Symbol>, e: (Item, Symbol))
    ensures e in Pairs(it, looks) <==> e.0 == it && e.1 in looks
  {
    if looks != [] {
      var last := |looks| - 1;
      InPairs(it, looks[..last], e);
      assert looks == looks[..last] + [looks[last]];
    }
  }

  /** Every proposal is among them. */
  lemma {:induction false} InOffers(g: Grammar, look: Lookaheads, st: int, items: seq<Item>, it: Item, a: Symbol)
    requires it in items && Proposes(g, look, st, it, a)
    ensures (it, a) in Offers(g, look, st, items)
  {
    var last := |items| - 1;
    if it == items[last] {
      InPairs(it, look(st, it), (it, a));
    } else {
      assert items == items[..last] + [items[last]];
      InOffers(g, look, st, items[..last], it, a);
    }
  }

  lemma {:induction false} InFor(done: seq<(Item, Symbol)>, a: Symbol, it: Item)
    ensures it in For(done, a) <==> (it, a) in done
  {
    if done != [] {
      var last := |done| - 1;
      InFor(done[..last], a, it);
      assert done == done[..last] + [done[last]];
    }
  }

  /** And nothing else is. */
  lemma {:induction false} OnlyOffers(g: Grammar, look: Lookaheads, st: int, items: seq<Item>, it: Item, a: Symbol)
    requires (it, a) in Offers(g, look, st, items)
    ensures it in items && Proposes(g, look, st, it, a)
  {
    var last := |items| - 1;
    assert items == items[..last] + [items[last]];
    if (it, a) in Offers(g, look, st, items[..last]) {
      OnlyOffers(g, look, st, items[..last], it, a);
    } else {
      InPairs(items[last], look(st, items[last]), (it, a));
    }
  }

  /** The items of a state heard for a are those that have something to say about it. */
  lemma HeardAre(g: Grammar, look: Lookaheads, st: int, items: seq<Item>, it: Item, a: Symbol)
    ensures it in For(Offers(g, look, st, items), a) <==> it in items && Proposes(g, look, st, it, a)
  {
    hide Proposes;
    InFor(Offers(g, look, st, items), a, it);
    if it in items && Proposes(g, look, st, it, a) {
      InOffers(g, look, st, items, it, a);
    }
    if (it, a) in Offers(g, look, st, items) {
      OnlyOffers(g, look, st, items, it, a);
    }
  }

  /** What the row says of a. */
  function CellOf(row: Row, a: Symbol): Cell {
    Cell(if a in row.action then Some(row.action[a]) else None, if a in row.actionp then Some(row.actionp[a]) else None)
  }

  /** The row is what the offers in done come to, symbol by symbol. */
  ghost predicate Settled(g: Grammar, A: Automaton, st: int, done: seq<(Item, Symbol)>, row: Row) {
    forall a :: Settle(g, A, st, a, For(done, a)) == Some(CellOf(row, a))
  }

  lemma SettleMore(g: Grammar, A: Automaton, st: int, a: Symbol, items: seq<Item>, it: Item)
    ensures Settle(g, A, st, a, items + [it]) ==
      var c := Settle(g, A, st, a, items);
      if c.None? then None else Hear(g, c.value, it, a, Offer(g, A, st, it, a))
  {
    assert (items + [it])[..|items|] == items;
  }

  lemma SettledMore(g: Grammar, A: Automaton, st: int, done: seq<(Item, Symbol)>, row: Row, it: Item, a: Symbol,
      row': Row)
    requires Settled(g, A, st, done, row) && Hear(g, CellOf(row, a), it, a, Offer(g, A, st, it, a)) ==
      Some(CellOf(row', a))
    requires forall b :: b != a ==> CellOf(row', b) == CellOf(row, b)
    ensures Settled(g, A, st, done + [(it, a)], row')
  {
    hide Hear;
    hide CellOf;
    forall b ensures Settle(g, A, st, b, For(done + [(it, a)], b)) == Some(CellOf(row', b)) {
      ForMore(done, it, a, b);
      var items := For(done, b);
      assert Settle(g, A, st, b, items) == Some(CellOf(row, b));
      if a == b {
        SettleMore(g, A, st, a, items, it);
      } else {
        assert items + [] == items;
      }
    }
  }

  /** Two of the items in done offer different things for a. */
  ghost predicate Conflict(g: Grammar, A: Automaton, st: int, done: seq<(Item, Symbol)>, a: Symbol) {
    exists i1, i2 :: (i1, a) in done && (i2, a) in done && Offer(g, A, st, i1, a) != Offer(g, A, st, i2, a)
  }

  ghost predicate Heard(done: seq<(Item, Symbol)>, a: Symbol) {
    exists it :: (it, a) in done
  }

  /** The entry for a reflects the offers in done: it is one of them, and there is one if they agree. */
  ghost predicate CellOk(g: Grammar, A: Automaton, st: int, done: seq<(Item, Symbol)>, row: Row, a: Symbol) {
    && (a in row.action <==> Heard(done, a))
    && (row.Has(a) ==>
          a in row.actionp && (row.actionp[a], a) in done && row.action[a].n == Offer(g, A, st, row.actionp[a], a))
    && (Heard(done, a) && !Conflict(g, A, st, done, a) ==> row.Has(a))
  }

  ghost predicate Legitimate(g: Grammar, A: Automaton, look: Lookaheads, st: int, done: seq<(Item, Symbol)>) {
    0 <= st < |A.C| && forall it, a :: (it, a) in done ==> it in A.C[st] && Proposes(g, look, st, it, a)
  }

  ghost predicate RowOk(g: Grammar, A: Automaton, look: Lookaheads, st: int, done: seq<(Item, Symbol)>, row: Row) {
    Legitimate(g, A, look, st, done) && Settled(g, A, st, done, row) && forall a :: CellOk(g, A, st, done, row, a)
  }

  /** A row in which an offer for a has just been heeded, kept out or cancelled. */
  ghost predicate RowHears(g: Grammar, A: Automaton, st: int, done: seq<(Item, Symbol)>, row: Row, it: Item, a: Symbol,
      row': Row) {
    || row' == row.Set(a, Offer(g, A, st, it, a), it)
    || (row.Has(a) && row' == row)
    || (row.Has(a) && row.action[a].n != Offer(g, A, st, it, a) && row' == row.Block(a))
  }

  /** More offers make more conflicts, and offers for another symbol make none. */
  lemma ConflictGrows(g: Grammar, A: Automaton, st: int, done: seq<(Item, Symbol)>, it: Item, a: Symbol, b: Symbol)
    ensures Conflict(g, A, st, done, b) ==> Conflict(g, A, st, done + [(it, a)], b)
    ensures a != b ==> (Conflict(g, A, st, done + [(it, a)], b) ==> Conflict(g, A, st, done, b))
    ensures a != b ==> (Heard(done + [(it, a)], b) <==> Heard(done, b))
  {
    hide Offer;
    var done' := done + [(it, a)];
    if i1, i2 :| (i1, b) in done && (i2, b) in done && Offer(g, A, st, i1, b) != Offer(g, A, st, i2, b) {
      assert (i1, b) in done' && (i2, b) in done';
    }
    if i :| (i, b) in done {
      assert (i, b) in done';
    }
  }

  lemma HearingKeepsCell(g: Grammar, A: Automaton, st: int, done: seq<(Item, Symbol)>, row: Row, it: Item, a: Symbol,
      row': Row, b: Symbol)
    requires CellOk(g, A, st, done, row, b) && RowHears(g, A, st, done, row, it, a, row')
    ensures CellOk(g, A, st, done + [(it, a)], row', b)
  {
    hide Offer;
    var done' := done + [(it, a)];
    ConflictGrows(g, A, st, done, it, a, b);
    if b == a {
      assert (it, a) in done';
      if row.Has(a) && row.action[a].n != Offer(g, A, st, it, a) {
        assert (row.actionp[a], a) in done';
        assert Conflict(g, A, st, done', a);
      }
    }
  }

  lemma HearingKeepsRow(g: Grammar, A: Automaton, look: Lookaheads, st: int, done: seq<(Item, Symbol)>, row: Row,
      it: Item, a: Symbol, row': Row)
    requires RowOk(g, A, look, st, done, row)
    requires it in A.C[st] && Proposes(g, look, st, it, a)
    requires RowHears(g, A, st, done, row, it, a, row')
    requires Hear(g, CellOf(row, a), it, a, Offer(g, A, st, it, a)) == Some(CellOf(row', a))
    ensures RowOk(g, A, look, st, done + [(it, a)], row')
  {
    hide CellOk;
    hide Proposes;
    hide Settled;
    hide Hear;
    hide Offer;
    SettledMore(g, A, st, done, row, it, a, row');
    forall b ensures CellOk(g, A, st, done + [(it, a)], row', b) {
      HearingKeepsCell(g, A, st, done, row, it, a, row', b);
    }
  }

  /** What the entry stored for a says about the item it came from. */
  lemma CellFacts(g: Grammar, A: Automaton, look: Lookaheads, st: int, done: seq<(Item, Symbol)>, row: Row, a: Symbol)
    requires IsAutomaton(g, A) && RowOk(g, A, look, st, done, row) && row.Has(a)
    ensures a in row.actionp
    ensures var it, n := row.actionp[a], row.action[a].n;
      && it.number < |g.productions| && it in A.C[st]
      && (n > 0 ==> (st, a) in A.delta && n == A.delta[(st, a)])
      && (n < 0 ==> n == 0 - it.number)
      && (n == 0 ==> a == DollarEnd && it.number == 0 && IsComplete(g, it))
  {
    assert CellOk(g, A, st, done, row, a);
    OfferKinds(g, A, look, st, row.actionp[a], a);
  }

  /** One lookahead of a complete item: st_action[a] is set to reduce unless something stands against it. */
  method Reduce(g: Grammar, ghost A: Automaton, look: Lookaheads, ghost st: int, ghost done: seq<(Item, Symbol)>,
      row: Row, it: Item, a: Symbol)
    returns (ok: bool, row': Row)
    requires IsAutomaton(g, A) && 0 <= st < |A.C| && RowOk(g, A, look, st, done, row)
    requires it in A.C[st] && IsComplete(g, it) && it.number > 0 && Proposes(g, look, st, it, a)
    ensures ok ==> RowOk(g, A, look, st, done + [(it, a)], row')
    ensures ok ==> RowHears(g, A, st, done, row, it, a, row')
    ensures ok && row.Has(a) && row.action[a].n > 0 ==>
      && a in row.actionp && row.actionp[a].number < |g.productions|
      && var d := ReduceLate(g.productions[row.actionp[a].number].prec, PrecOf(g, a));
      row' == if d == Reduces then row.Set(a, 0 - it.number, it) else if d == Errors then row.Block(a) else row
    ensures ok && row.Has(a) && row.action[a].n < 0 ==>
      && a in row.actionp && row.actionp[a].number < |g.productions|
      && row' == if g.productions[row.actionp[a].number].line > g.productions[it.number].line
         then row.Set(a, 0 - it.number, it) else row
    ensures !ok ==> a == DollarEnd && exists it0 :: it0 in A.C[st] && it0.number == 0 && IsComplete(g, it0)
  {
    ok, row' := true, row;
    OfferKinds(g, A, look, st, it, a);
    if row.Has(a) {
      CellFacts(g, A, look, st, done, row, a);
    }
    hide RowOk;
    hide Proposes;
    if row.Has(a) {
      var r := row.action[a].n;
      if r > 0 {
        var sprec := g.productions[row.actionp[a].number].prec;
        var rprec := PrecOf(g, a);
        if sprec.level < rprec.level || (sprec.level == rprec.level && rprec.assoc == Left) {
          row' := row.Set(a, 0 - it.number, it);
        } else if sprec.level == rprec.level && rprec.assoc == NonAssoc {
          row' := row.Block(a);
        }
      } else if r < 0 {
        var oldp, pp := g.productions[-r], g.productions[it.number];
        if oldp.line > pp.line {
          row' := row.Set(a, 0 - it.number, it);
        }
      } else {
        ok := false;
        return;
      }
    } else {
      row' := row.Set(a, 0 - it.number, it);
    }
    HearingKeepsRow(g, A, look, st, done, row, it, a, row');
  }

  /** The sign of an offer tells what kind of item makes it. */
  lemma OfferKinds(g: Grammar, A: Automaton, look: Lookaheads, st: int, it: Item, a: Symbol)
    requires IsAutomaton(g, A) && 0 <= st < |A.C| && it in A.C[st] && Proposes(g, look, st, it, a)
    ensures it.number < |g.productions|
    ensures Offer(g, A, st, it, a) > 0 <==> !IsComplete(g, it)
    ensures !IsComplete(g, it) ==> (st, a) in A.delta && Offer(g, A, st, it, a) == A.delta[(st, a)]
    ensures Offer(g, A, st, it, a) == 0 <==> IsComplete(g, it) && it.number == 0
    ensures Offer(g, A, st, it, a) == 0 ==> a == DollarEnd
  {
    assert GoodSet(g, A.C[st]);
    if !IsComplete(g, it) {
      KernelItems(g, A.C[st], a, Item(it.number, it.dot + 1));
      assert Kernel(g, A.C[st], a) != [];
    }
  }

  /** An item with terminal a after the dot; j is goto(I, a). */
  method Shift(g: Grammar, ghost A: Automaton, ghost look: Lookaheads, ghost st: int, ghost done: seq<(Item, Symbol)>,
      row: Row, it: Item, a: Symbol, j: int)
    returns (row': Row)
    requires IsAutomaton(g, A) && 0 <= st < |A.C| && RowOk(g, A, look, st, done, row)
    requires it in A.C[st] && !IsComplete(g, it) && Proposes(g, look, st, it, a) && (st, a) in A.delta && j ==
      A.delta[(st, a)]
    ensures RowOk(g, A, look, st, done + [(it, a)], row')
    ensures RowHears(g, A, st, done, row, it, a, row')
    ensures row.Has(a) && row.action[a].n < 0 ==>
      && a in row.actionp && row.actionp[a].number < |g.productions|
      && var d := ShiftLate(g.productions[row.actionp[a].number].prec, PrecOf(g, a));
      row' == if d == Shifts then row.Set(a, j, it) else if d == Errors then row.Block(a) else row
  {
    row' := row;
    OfferKinds(g, A, look, st, it, a);
    assert a in g.terminals && a != DollarEnd;
    if row.Has(a) {
      CellFacts(g, A, look, st, done, row, a);
    }
    hide RowOk;
    hide Proposes;
    if row.Has(a) {
      var r := row.action[a].n;
      if r > 0 {
        // "Shift/shift conflict" is raised here if r != j, which cannot be
        assert r == j;
      } else if r < 0 {
        var rprec := g.productions[row.actionp[a].number].prec;
        var sprec := PrecOf(g, a);
        if sprec.level > rprec.level || (sprec.level == rprec.level && rprec.assoc == Right) {
          row' := row.Set(a, j, it);
        } else if sprec.level == rprec.level && rprec.assoc == NonAssoc {
          row' := row.Block(a);
        }
      }
      // "Unknown conflict" is raised for r == 0, which is only ever stored for '$end'
    } else {
      row' := row.Set(a, j, it);
    }
    HearingKeepsRow(g, A, look, st, done, row, it, a, row');
  }

  // ----- rows and tables

  datatype Tables = Tables(action: seq<map<Symbol, Entry>>, goto: seq<map<Symbol, int>>)

  ghost predicate Proposed(g: Grammar, A: Automaton, look: Lookaheads, st: int, it: Item, a: Symbol, n: int)
    requires 0 <= st < |A.C|
  {
    it in A.C[st] && Proposes(g, look, st, it, a) && Offer(g, A, st, it, a) == n
  }

  /**
   * A row of ACTION holds only offers of the state's items, nothing for symbols
   * without an offer, and the offer itself wherever the items agree.
   */
  ghost predicate ActionRow(g: Grammar, A: Automaton, look: Lookaheads, st: int, action: map<Symbol, Entry>)
    requires 0 <= st < |A.C|
  {
    && (forall a :: a in action ==> exists it, n :: Proposed(g, A, look, st, it, a, n))
    && (forall a :: a in action && action[a].Act? ==> exists it :: Proposed(g, A, look, st, it, a, action[a].n))
    && (forall it, a, n :: Proposed(g, A, look, st, it, a, n) && OnlyOffer(g, A, look, st, a, n) ==>
          a in action && action[a] == Act(n))
  }

  ghost predicate OnlyOffer(g: Grammar, A: Automaton, look: Lookaheads, st: int, a: Symbol, n: int)
    requires 0 <= st < |A.C|
  {
    forall it, m :: Proposed(g, A, look, st, it, a, m) ==> m == n
  }

  ghost predicate GotoRow(g: Grammar, A: Automaton, st: int, goto: map<Symbol, int>) {
    && (forall n :: n in goto <==> n in g.nonterminals && (st, n) in A.delta)
    && (forall n :: n in goto ==> goto[n] == A.delta[(st, n)])
  }

  ghost predicate RowsFor(g: Grammar, A: Automaton, look: Lookaheads, st: int, action: map<Symbol, Entry>,
      goto: map<Symbol, int>)
    requires 0 <= st < |A.C|
  {
    ActionRow(g, A, look, st, action) && SettledRow(g, A, look, st, action) && GotoRow(g, A, st, goto)
  }

  ghost predicate TablesFor(g: Grammar, A: Automaton, look: Lookaheads, t: Tables) {
    && IsAutomaton(g, A)
    && |t.action| == |t.goto| == |A.C|
    && (forall st :: 0 <= st < |A.C| ==> RowsFor(g, A, look, st, t.action[st], t.goto[st]))
  }

  /** A state that both accepts and reduces on '$end': the one conflict the generator gives up on. */
  ghost predicate AcceptConflict(g: Grammar, look: Lookaheads, st: int, I: ItemSet) {
    exists i0, it :: i0 in I && it in I && IsComplete(g, i0) && i0.number == 0
      && IsComplete(g, it) && it.number > 0 && DollarEnd in look(st, it)
  }

  /** The row holds what all offers of the state come to in the order of its items. */
  ghost predicate SettledRow(g: Grammar, A: Automaton, look: Lookaheads, st: int, action: map<Symbol, Entry>)
    requires 0 <= st < |A.C|
  {
    forall a :: EntryHolds(action, a, Settle(g, A, st, a, For(Offers(g, look, st, A.C[st]), a)))
  }

  predicate EntryHolds(action: map<Symbol, Entry>, a: Symbol, c: Option<Cell>) {
    c.Some? && c.value.entry == if a in action then Some(action[a]) else None
  }

  lemma SettledIs(g: Grammar, A: Automaton, look: Lookaheads, st: int, row: Row)
    requires 0 <= st < |A.C| && Settled(g, A, st, Offers(g, look, st, A.C[st]), row)
    ensures SettledRow(g, A, look, st, row.action)
  {
    hide Offers;
    hide Settle;
    hide For;
  }

  lemma RowIsExact(g: Grammar, A: Automaton, look: Lookaheads, st: int, row: Row)
    requires 0 <= st < |A.C| && RowOk(g, A, look, st, Offers(g, look, st, A.C[st]), row)
    ensures ActionRow(g, A, look, st, row.action) && SettledRow(g, A, look, st, row.action)
  {
    hide Proposes;
    hide Offer;
    hide Settled;
    hide Offers;
    var done := Offers(g, look, st, A.C[st]);
    SettledIs(g, A, look, st, row);
    forall it, a | it in A.C[st] && Proposes(g, look, st, it, a) ensures (it, a) in done {
      InOffers(g, look, st, A.C[st], it, a);
    }
    forall a | a in row.action ensures exists it, n :: Proposed(g, A, look, st, it, a, n) {
      assert CellOk(g, A, st, done, row, a);
      var it :| (it, a) in done;
      assert Proposed(g, A, look, st, it, a, Offer(g, A, st, it, a));
    }
    forall a | a in row.action && row.action[a].Act?
      ensures exists it :: Proposed(g, A, look, st, it, a, row.action[a].n) {
      assert CellOk(g, A, st, done, row, a);
      assert Proposed(g, A, look, st, row.actionp[a], a, row.action[a].n);
    }
    forall it, a, n | Proposed(g, A, look, st, it, a, n) && OnlyOffer(g, A, look, st, a, n)
      ensures a in row.action && row.action[a] == Act(n)
    {
      assert CellOk(g, A, st, done, row, a) && (it, a) in done;
      forall i | (i, a) in done ensures Offer(g, A, st, i, a) == n {
        assert Proposed(g, A, look, st, i, a, Offer(g, A, st, i, a));
      }
    }
  }

  /** The collection's numbering is the automaton's. */
  ghost predicate Numbers(coll: Collection, A: Automaton)
    reads coll
  {
    && coll.Complete(A.C) && IsAutomaton(coll.g, A)
    && forall st, x :: (st, x) in A.delta ==>
         var key := (x, Kernel(coll.g, A.C[st], x));
         key in coll.trie && coll.trie[key] in coll.cidhash && coll.cidhash[coll.trie[key]] == A.delta[(st, x)]
  }

  /** self.lr0_cidhash.get(id(self.lr0_goto(I, x)), -1) */
  method NextState(coll: Collection, ghost A: Automaton, I: ItemSet, ghost st: int, x: Symbol) returns (j: int)
    requires Numbers(coll, A) && 0 <= st < |A.C| && A.C[st] == I
    modifies coll`trie, coll`memo
    ensures Numbers(coll, A)
    ensures j == if (st, x) in A.delta then A.delta[(st, x)] else -1
  {
    assert GoodSet(coll.g, A.C[st]);
    var J := coll.Goto(I, x);
    j := if J in coll.cidhash then coll.cidhash[J] else -1;
    if J in coll.cidhash {
      assert GoodSet(coll.g, A.C[coll.cidhash[J]]);
    }
  }

  /** for a in laheads: ... */
  method ReduceAll(g: Grammar, ghost A: Automaton, look: Lookaheads, st: int, ghost done0: seq<(Item, Symbol)>,
      row0: Row, it: Item)
    returns (ok: bool, row: Row, ghost done: seq<(Item, Symbol)>)
    requires IsAutomaton(g, A) && 0 <= st < |A.C| && RowOk(g, A, look, st, done0, row0)
    requires it in A.C[st] && IsComplete(g, it) && it.number > 0
    ensures ok ==> RowOk(g, A, look, st, done, row) && done == done0 + Pairs(it, look(st, it))
    ensures !ok ==> AcceptConflict(g, look, st, A.C[st])
  {
    ok, row, done := true, row0, done0;
    hide RowOk;
    var laheads := look(st, it);
    for m := 0 to |laheads|
      invariant ok && RowOk(g, A, look, st, done, row) && done == done0 + Pairs(it, laheads[..m])
    {
      assert laheads[..m + 1] == laheads[..m] + [laheads[m]];
      ok, row := Reduce(g, A, look, st, done, row, it, laheads[m]);
      if !ok {
        return;
      }
      done := done + [(it, laheads[m])];
    }
    assert laheads[..|laheads|] == laheads;
  }

  /** One item of a state in the loop of lr_parse_table(). */
  method HearItem(coll: Collection, ghost A: Automaton, look: Lookaheads, st: int, I: ItemSet,
      ghost done0: seq<(Item, Symbol)>, row0: Row, it: Item)
    returns (ok: bool, row: Row, ghost done: seq<(Item, Symbol)>)
    requires Numbers(coll, A) && 0 <= st < |A.C| && A.C[st] == I && RowOk(coll.g, A, look, st, done0, row0) && it in I
    modifies coll`trie, coll`memo
    ensures Numbers(coll, A)
    ensures ok ==> RowOk(coll.g, A, look, st, done, row) && done == done0 + ItemOffers(coll.g, look, st, it)
    ensures !ok ==> AcceptConflict(coll.g, look, st, I)
  {
    var g := coll.g;
    assert GoodSet(g, A.C[st]);
    ok, row, done := true, row0, done0;
    if IsComplete(g, it) {
      if g.productions[it.number].name == AugStart {
        StartIsFirst(g, it.number);
        row := row0.Set(DollarEnd, 0, it);
        HearingKeepsRow(g, A, look, st, done0, row0, it, DollarEnd, row);
        done := done0 + [(it, DollarEnd)];
      } else {
        ok, row, done := ReduceAll(g, A, look, st, done0, row0, it);
      }
    } else {
      var a := g.productions[it.number].prod[it.dot];
      if a in g.terminals {
        OfferKinds(g, A, look, st, it, a);
        var j := NextState(coll, A, I, st, a);
        if j >= 0 {
          row := Shift(g, A, look, st, done0, row0, it, a, j);
          done := done0 + [(it, a)];
        }
      }
    }
  }

  lemma StartIsFirst(g: Grammar, k: nat)
    requires g.WellFormed() && k < |g.productions|
    ensures g.productions[k].name == AugStart <==> k == 0
  {
  }

  method ActionsOf(coll: Collection, ghost A: Automaton, look: Lookaheads, st: int, I: ItemSet)
    returns (ok: bool, action: map<Symbol, Entry>)
    requires Numbers(coll, A) && 0 <= st < |A.C| && A.C[st] == I
    modifies coll`trie, coll`memo
    ensures Numbers(coll, A)
    ensures ok ==> ActionRow(coll.g, A, look, st, action) && SettledRow(coll.g, A, look, st, action)
    ensures !ok ==> AcceptConflict(coll.g, look, st, I)
  {
    var g := coll.g;
    var row := Row(map[], map[]);
    ghost var done: seq<(Item, Symbol)> := [];
    ok, action := true, map[];
    hide Proposes;
    hide Numbers;
    for k := 0 to |I|
      invariant ok && Numbers(coll, A) && RowOk(g, A, look, st, done, row) && done == Offers(g, look, st, I[..k])
    {
      assert I[..k + 1] == I[..k] + [I[k]];
      ok, row, done := HearItem(coll, A, look, st, I, done, row, I[k]);
      if !ok {
        return;
      }
    }
    assert I[..|I|] == I;
    RowIsExact(g, A, look, st, row);
    action := row.action;
  }

  method GotosOf(coll: Collection, ghost A: Automaton, st: int, I: ItemSet) returns (goto: map<Symbol, int>)
    requires Numbers(coll, A) && 0 <= st < |A.C| && A.C[st] == I
    modifies coll`trie, coll`memo
    ensures Numbers(coll, A)
    ensures GotoRow(coll.g, A, st, goto)
  {
    assert GoodSet(coll.g, A.C[st]);
    var nkeys := UsedSymbols(coll.g, I);
    goto := map[];
    for m := 0 to |nkeys|
      invariant Numbers(coll, A)
      invariant forall n :: n in goto <==> n in nkeys[..m] && n in coll.g.nonterminals && (st, n) in A.delta
      invariant forall n :: n in goto ==> goto[n] == A.delta[(st, n)]
    {
      assert nkeys[..m + 1] == nkeys[..m] + [nkeys[m]];
      var n := nkeys[m];
      if n in coll.g.nonterminals {
        var j := NextState(coll, A, I, st, n);
        if j >= 0 {
          goto := goto[n := j];
        }
      }
    }
    assert nkeys[..|nkeys|] == nkeys;
  }

  ghost function Symbols(g: Grammar): set<Symbol> {
    g.terminals + set n | n in g.nonterminals
  }

  /** The automaton a finished collection stands for. */
  ghost function AutomatonOf(coll: Collection, C: seq<ItemSet>): Automaton
    requires coll.Complete(C)
    reads coll
  {
    Automaton(C, map st, x | 0 <= st < |C| && x in Symbols(coll.g) && Kernel(coll.g, C[st], x) != [] ::
      (st, x) := (assert coll.Followed(C[st], x); coll.cidhash[coll.trie[(x, Kernel(coll.g, C[st], x))]]))
  }

  lemma KernelSymbolKnown(g: Grammar, I: ItemSet, x: Symbol)
    requires g.WellFormed() && Kernel(g, I, x) != []
    ensures x in Symbols(g)
  {
    var it := Kernel(g, I, x)[0];
    KernelItems(g, I, x, it);
    assert g.Knows(g.productions[it.number].prod);
    assert x in g.productions[it.number].prod;
  }

  lemma DeltaEntry(coll: Collection, C: seq<ItemSet>, st: int, x: Symbol)
    requires coll.Complete(C) && 0 <= st < |C| && Kernel(coll.g, C[st], x) != []
    ensures x in Symbols(coll.g)
    ensures var key := (x, Kernel(coll.g, C[st], x));
      && key in coll.trie && coll.trie[key] in coll.cidhash
      && var j := coll.cidhash[coll.trie[key]]; 1 <= j < |C| && Transition(coll.g, C[st], x, C[j])
  {
    KernelSymbolKnown(coll.g, C[st], x);
    assert coll.Followed(C[st], x);
    var J := coll.trie[(x, Kernel(coll.g, C[st], x))];
    NotFirst(coll.g, C[0], C[st], x, J);
  }

  /** A has a transition where an item has x after the dot, and it is what the caches answer. */
  ghost predicate DeltaAnswers(coll: Collection, C: seq<ItemSet>, A: Automaton, st: int, x: Symbol)
    reads coll
  {
    && ((st, x) in A.delta <==> 0 <= st < |C| && Kernel(coll.g, C[st], x) != [])
    && ((st, x) in A.delta ==>
          var key := (x, Kernel(coll.g, C[st], x));
          && key in coll.trie && coll.trie[key] in coll.cidhash && A.delta[(st, x)] == coll.cidhash[coll.trie[key]]
          && Edge(coll.g, A, (st, x)))
  }

  lemma DeltaIs(coll: Collection, C: seq<ItemSet>, st: int, x: Symbol)
    requires coll.Complete(C)
    ensures DeltaAnswers(coll, C, AutomatonOf(coll, C), st, x)
  {
    if 0 <= st < |C| && Kernel(coll.g, C[st], x) != [] {
      DeltaEntry(coll, C, st, x);
    }
    hide Transition;
  }

  lemma CollectionNumbers(coll: Collection, C: seq<ItemSet>)
    requires coll.Complete(C)
    ensures Numbers(coll, AutomatonOf(coll, C))
  {
    hide AutomatonOf;
    hide Edge;
    hide GoodSet;
    hide IsClosure;
    var A := AutomatonOf(coll, C);
    AutomatonSets(coll, C);
    forall st, x | 0 <= st < |C| && Kernel(coll.g, C[st], x) != [] ensures (st, x) in A.delta {
      DeltaIs(coll, C, st, x);
    }
    forall st, x | (st, x) in A.delta
      ensures 0 <= st < |A.C|
      ensures var key := (x, Kernel(coll.g, A.C[st], x));
        key in coll.trie && coll.trie[key] in coll.cidhash && coll.cidhash[coll.trie[key]] == A.delta[(st, x)]
    {
      DeltaIs(coll, C, st, x);
    }
    forall key | key in A.delta ensures Edge(coll.g, A, key) {
      DeltaIs(coll, C, key.0, key.1);
    }
  }

  lemma AutomatonSets(coll: Collection, C: seq<ItemSet>)
    requires coll.Complete(C)
    ensures AutomatonOf(coll, C).C == C
  {
  }

  /** The first item set, made of initial items only, is never a goto. */
  lemma NotFirst(g: Grammar, J0: ItemSet, I: ItemSet, x: Symbol, J: ItemSet)
    requires IsClosure(g, [Item(0, 0)], J0) && Kernel(g, I, x) != [] && TrieEntry(g, Kernel(g, I, x), J)
    ensures J != J0
  {
    var it := Kernel(g, I, x)[0];
    KernelItems(g, I, x, it);
    assert J[0] == it && it.dot > 0 && J0[0] == Item(0, 0);
  }

  /** Step 1: the collection of item sets. */
  method Collect(g: Grammar) returns (coll: Collection, C: seq<ItemSet>, ghost A: Automaton)
    requires g.WellFormed()
    ensures fresh(coll) && coll.g == g && A.C == C && Numbers(coll, A) && IsAutomaton(g, A)
  {
    coll := new Collection(g);
    C := coll.Items();
    A := AutomatonOf(coll, C);
    CollectionNumbers(coll, C);
  }

  /** The rows of both tables, state by state, unless a state has an accept/reduce conflict. */
  method FillTables(coll: Collection, C: seq<ItemSet>, ghost A: Automaton, look: Lookaheads)
    returns (ok: bool, t: Tables)
    requires Numbers(coll, A) && A.C == C
    modifies coll`trie, coll`memo
    ensures ok ==> TablesFor(coll.g, A, look, t)
    ensures !ok ==> exists st :: 0 <= st < |A.C| && AcceptConflict(coll.g, look, st, A.C[st])
  {
    assert IsAutomaton(coll.g, A);
    hide Numbers;
    hide IsAutomaton;
    hide ActionRow;
    hide GotoRow;
    ok, t := true, Tables([], []);
    for st := 0 to |C|
      invariant Numbers(coll, A)
      invariant ok && |t.action| == |t.goto| == st
      invariant forall k :: 0 <= k < st ==> RowsFor(coll.g, A, look, k, t.action[k], t.goto[k])
    {
      var stAction, stGoto;
      ok, stAction := ActionsOf(coll, A, look, st, C[st]);
      if !ok {
        return;
      }
      stGoto := GotosOf(coll, A, st, C[st]);
      t := Tables(t.action + [stAction], t.goto + [stGoto]);
    }
  }

  /** lr_parse_table(): both tables for lookaheads that are given. */
  method ParseTable(g: Grammar, look: Lookaheads) returns (ok: bool, t: Tables, ghost A: Automaton)
    requires g.WellFormed()
    ensures ok ==> TablesFor(g, A, look, t)
    ensures !ok ==> IsAutomaton(g, A) && exists st :: 0 <= st < |A.C| && AcceptConflict(g, look, st, A.C[st])
  {
    var coll, C;
    coll, C, A := Collect(g);
    ok, t := FillTables(coll, C, A, look);
  }
}
