/** LR(0) items, their closures, and the collection of item sets with its transitions. */
module LR0 {
  import opened Finite
  import opened Grammar

  /** Production number with the position of the dot. */
  datatype Item = Item(number: nat, dot: nat)

  ghost predicate ItemOf(g: Grammar, it: Item) {
    it.number < |g.productions| && it.dot <= |g.productions[it.number].prod|
  }

  ghost predicate ItemsOf(g: Grammar, I: seq<Item>) {
    forall it :: it in I ==> ItemOf(g, it)
  }

  /** x stands right after the dot. */
  predicate Before(g: Grammar, it: Item, x: Symbol) {
    it.number < |g.productions| && it.dot < |g.productions[it.number].prod| && g.productions[it.number].prod[it.dot] ==
      x
  }

  /** The numbers of the productions of n; production 0 is not among them. */
  function RuleNumbers(g: Grammar, n: Symbol, i: nat): (ks: seq<nat>)
    ensures forall k :: k in ks <==> i <= k < |g.productions| && g.productions[k].name == n
    decreases |g.productions| - i
  {
    if i >= |g.productions| then []
    else if g.productions[i].name == n then [i] + RuleNumbers(g, n, i + 1)
    else RuleNumbers(g, n, i + 1)
  }

  /** lr_after: the productions of the symbol after the dot. */
  function After(g: Grammar, it: Item): (ks: seq<nat>)
    ensures forall k :: k in ks <==> 1 <= k < |g.productions| && Before(g, it, g.productions[k].name)
  {
    if it.number < |g.productions| && it.dot < |g.productions[it.number].prod|
    then RuleNumbers(g, g.productions[it.number].prod[it.dot], 1)
    else []
  }

  // ----- closure

  /** Item k of J was added because an earlier item has its left-hand side after the dot. */
  ghost predicate Justified(g: Grammar, J: seq<Item>, k: int) {
    && 0 <= k < |J| && J[k].dot == 0
    && exists i :: 0 <= i < k && J[k].number in After(g, J[i])
  }

  ghost predicate ClosedItems(g: Grammar, J: seq<Item>) {
    forall i, x :: 0 <= i < |J| && x in After(g, J[i]) ==> Item(x, 0) in J
  }

  /** J extends I by justified initial items until nothing is missing. */
  ghost predicate IsClosure(g: Grammar, I: seq<Item>, J: seq<Item>) {
    && I <= J
    && (forall k :: |I| <= k < |J| ==> Justified(g, J, k))
    && ClosedItems(g, J)
  }

  /** The items a closure may start from: no initial item that closing could add again. */
  ghost predicate IsKernel(g: Grammar, I: seq<Item>) {
    ItemsOf(g, I) && NoRepeats(I) && forall it :: it in I ==> it.dot > 0 || it.number == 0
  }

  /** It is the least closed set: any closed set around I contains J. */
  lemma ClosureLeast(g: Grammar, I: seq<Item>, J: seq<Item>, S: set<Item>, k: int)
    requires IsClosure(g, I, J) && 0 <= k < |J|
    requires forall it :: it in I ==> it in S
    requires forall it, x :: it in S && x in After(g, it) ==> Item(x, 0) in S
    ensures J[k] in S
    decreases k
  {
    if k < |I| {
      assert J[k] == I[k];
    } else {
      assert Justified(g, J, k);
      var i :| 0 <= i < k && J[k].number in After(g, J[i]);
      ClosureLeast(g, I, J, S, i);
    }
  }

  method Closure(g: Grammar, I: seq<Item>) returns (J: seq<Item>)
    requires g.WellFormed() && IsKernel(g, I)
    ensures IsClosure(g, I, J) && ItemsOf(g, J) && NoRepeats(J)
  {
    J := I;
    var added: set<nat> := {};
    var didadd := true;
    while didadd
      invariant Growing(g, I, J, added)
      invariant !didadd ==> ClosedItems(g, J)
      decreases Below(|g.productions|) - added, didadd
    {
      didadd, J, added := Sweep(g, I, J, added);
    }
  }

  /** for j in J, with J growing under the iteration. */
  method Sweep(g: Grammar, ghost I: seq<Item>, J0: seq<Item>, added0: set<nat>)
    returns (didadd: bool, J: seq<Item>, added: set<nat>)
    requires Growing(g, I, J0, added0)
    ensures Growing(g, I, J, added)
    ensures if didadd then added0 < added else added == added0 && ClosedItems(g, J)
  {
    hide Growing;
    didadd, J, added := false, J0, added0;
    var k := 0;
    while k < |J|
      invariant 0 <= k <= |J| && Growing(g, I, J, added)
      invariant if didadd then added0 < added else added == added0
      invariant forall i, x :: 0 <= i < k && x in After(g, J[i]) ==> x in added
      decreases Below(|g.productions|) - added, |J| - k
    {
      var did;
      did, J, added := Visit(g, I, J, added, k);
      didadd := didadd || did;
      k := k + 1;
    }
    if !didadd {
      GrowingClosed(g, I, J, added);
    }
  }

  lemma GrowingClosed(g: Grammar, I: seq<Item>, J: seq<Item>, added: set<nat>)
    requires Growing(g, I, J, added)
    requires forall i, x :: 0 <= i < |J| && x in After(g, J[i]) ==> x in added
    ensures ClosedItems(g, J)
  {
  }

  /** for x in j.lr_after */
  method Visit(g: Grammar, ghost I: seq<Item>, J0: seq<Item>, added0: set<nat>, k: nat)
    returns (didadd: bool, J: seq<Item>, added: set<nat>)
    requires Growing(g, I, J0, added0) && k < |J0|
    ensures Growing(g, I, J, added) && J0 <= J
    ensures if didadd then added0 < added else added == added0 && J == J0
    ensures forall x :: x in After(g, J0[k]) ==> x in added
    ensures added <= Below(|g.productions|)
  {
    hide Growing;
    hide After;
    didadd, J, added := false, J0, added0;
    var after := After(g, J[k]);
    for m := 0 to |after|
      invariant Growing(g, I, J, added) && J0 <= J
      invariant if didadd then added0 < added else added == added0 && J == J0
      invariant forall i :: 0 <= i < m ==> after[i] in added
    {
      var x := after[m];
      if x !in added {
        Grow(g, I, J, added, k, x);
        J := J + [Item(x, 0)];
        added := added + {x};
        didadd := true;
      }
    }
    GrowingBound(g, I, J, added);
  }

  lemma GrowingBound(g: Grammar, I: seq<Item>, J: seq<Item>, added: set<nat>)
    requires Growing(g, I, J, added)
    ensures added <= Below(|g.productions|)
  {
  }

  /** The loop state of lr0_closure(): the marked productions are those appended so far. */
  ghost predicate Growing(g: Grammar, I: seq<Item>, J: seq<Item>, added: set<nat>) {
    && I <= J && IsKernel(g, I) && ItemsOf(g, J) && NoRepeats(J)
    && (forall k :: |I| <= k < |J| ==> Justified(g, J, k) && J[k].number in added)
    && (forall x :: x in added ==> 1 <= x < |g.productions| && Item(x, 0) in J)
  }

  lemma JustifiedStays(g: Grammar, J: seq<Item>, J': seq<Item>, k: int)
    requires Justified(g, J, k) && J <= J'
    ensures Justified(g, J', k)
  {
    var i :| 0 <= i < k && J[k].number in After(g, J[i]);
    assert J'[i] == J[i] && J'[k] == J[k];
  }

  lemma UnmarkedIsNew(g: Grammar, I: seq<Item>, J: seq<Item>, added: set<nat>, x: nat)
    requires Growing(g, I, J, added) && x !in added && x > 0
    ensures Item(x, 0) !in J
  {
    forall k | 0 <= k < |J| ensures J[k] != Item(x, 0) {
      if k < |I| {
        assert J[k] == I[k] && J[k] in I;
      } else {
        assert J[k].number in added;
      }
    }
  }

  lemma Grow(g: Grammar, I: seq<Item>, J: seq<Item>, added: set<nat>, i: int, x: nat)
    requires Growing(g, I, J, added) && 0 <= i < |J| && x in After(g, J[i]) && x !in added
    ensures Growing(g, I, J + [Item(x, 0)], added + {x})
  {
    var J' := J + [Item(x, 0)];
    UnmarkedIsNew(g, I, J, added, x);
    assert J'[i] == J[i] && Justified(g, J', |J|);
    forall k | |I| <= k < |J| ensures Justified(g, J', k) && J'[k].number in added + {x} {
      JustifiedStays(g, J, J', k);
    }
    hide Justified;
    hide After;
    assert ItemsOf(g, J') && NoRepeats(J');
  }

  // ----- goto and the collection of item sets

  type ItemSet = seq<Item>

  /** The items of I with x after the dot, each moved past it, in order. */
  function Kernel(g: Grammar, I: ItemSet, x: Symbol): ItemSet {
    if I == [] then []
    else if Before(g, I[0], x) then [Item(I[0].number, I[0].dot + 1)] + Kernel(g, I[1..], x)
    else Kernel(g, I[1..], x)
  }

  lemma {:induction false} KernelItems(g: Grammar, I: ItemSet, x: Symbol, it: Item)
    ensures it in Kernel(g, I, x) <==>
      it.dot > 0 && Item(it.number, it.dot - 1) in I && Before(g, Item(it.number, it.dot - 1), x)
  {
    if I != [] {
      KernelItems(g, I[1..], x, it);
    }
  }

  lemma {:induction false} KernelDistinct(g: Grammar, I: ItemSet, x: Symbol)
    requires NoRepeats(I)
    ensures NoRepeats(Kernel(g, I, x))
  {
    if I != [] {
      KernelDistinct(g, I[1..], x);
      if Before(g, I[0], x) {
        KernelItems(g, I[1..], x, Item(I[0].number, I[0].dot + 1));
      }
    }
  }

  lemma KernelIsKernel(g: Grammar, I: ItemSet, x: Symbol)
    requires ItemsOf(g, I) && NoRepeats(I)
    ensures IsKernel(g, Kernel(g, I, x))
  {
    KernelDistinct(g, I, x);
    forall it | it in Kernel(g, I, x) ensures ItemOf(g, it) && it.dot > 0 {
      KernelItems(g, I, x, it);
    }
  }

  lemma KernelFirst(g: Grammar, K1: ItemSet, J: ItemSet, K2: ItemSet)
    requires IsClosure(g, K1, J) && K2 <= J && forall i :: 0 <= i < |K2| ==> K2[i].dot > 0
    ensures |K2| <= |K1|
  {
    assert |K1| < |K2| ==> Justified(g, J, |K1|);
  }

  /** The kernel can be read off a closure: it is the part before the added items. */
  lemma KernelOfClosure(g: Grammar, K1: ItemSet, J1: ItemSet, K2: ItemSet, J2: ItemSet)
    requires IsClosure(g, K1, J1) && IsClosure(g, K2, J2) && J1 == J2
    requires forall i :: 0 <= i < |K1| ==> K1[i].dot > 0
    requires forall i :: 0 <= i < |K2| ==> K2[i].dot > 0
    ensures K1 == K2
  {
    KernelFirst(g, K1, J1, K2);
    KernelFirst(g, K2, J2, K1);
  }

  /**
   * The generator's caches. The trie maps a symbol and a kernel sequence to the
   * one list built for it; lists are told apart by identity in the source, which
   * for lists handed out by the trie is the same as by content.
   */
  class Collection {
    const g: Grammar
    var trie: map<(Symbol, ItemSet), ItemSet>
    var memo: map<(ItemSet, Symbol), ItemSet>
    var cidhash: map<ItemSet, int>

    constructor (g: Grammar)
      ensures this.g == g && trie == map[] && memo == map[] && cidhash == map[]
    {
      this.g := g;
      trie, memo, cidhash := map[], map[], map[];
    }

    /** The list the trie holds for goto(I, x), if it was asked for already. */
    ghost predicate Cached(I: ItemSet, x: Symbol, J: ItemSet)
      reads this`trie
    {
      (x, Kernel(g, I, x)) in trie && trie[(x, Kernel(g, I, x))] == J
    }

    ghost predicate Valid()
      reads this
    {
      && g.WellFormed()
      && (forall key :: key in trie ==> TrieEntry(g, key.1, trie[key]))
      && (forall key :: key in memo ==> Cached(key.0, key.1, memo[key]))
    }

    method Goto(I: ItemSet, x: Symbol) returns (J: ItemSet)
      requires Valid() && ItemsOf(g, I) && NoRepeats(I)
      modifies this`trie, this`memo
      ensures Valid() && Cached(I, x, J) && Transition(g, I, x, J)
      ensures forall key :: key in old(trie) ==> key in trie && trie[key] == old(trie)[key]
      ensures forall C, k :: 0 <= k < |C| && old(Reached(C, k)) ==> Reached(C, k)
    {
      if (I, x) in memo && memo[(I, x)] != [] {
        return memo[(I, x)];
      }
      var gs := MoveDot(g, I, x);
      if (x, gs) in trie && trie[(x, gs)] != [] {
        J := trie[(x, gs)];
      } else if gs != [] {
        KernelIsKernel(g, I, x);
        J := Closure(g, gs);
        trie := trie[(x, gs) := J];
      } else {
        J := [];
        trie := trie[(x, gs) := J];
      }
      memo := memo[(I, x) := J];
      forall C, k | 0 <= k < |C| && old(Reached(C, k)) ensures Reached(C, k) {
        var i, y :| old(ReachedBy(C, k, i, y));
        assert ReachedBy(C, k, i, y);
      }
    }

    // ----- lr0_items()

    /** Asking for goto(I, x) again finds a listed item set, or none if no item has x after the dot. */
    ghost predicate Followed(I: ItemSet, x: Symbol)
      reads this
    {
      Kernel(g, I, x) != [] ==> (x, Kernel(g, I, x)) in trie && trie[(x, Kernel(g, I, x))] in cidhash
    }

    /** C lists distinct item sets, numbered by cidhash, each but the first reached from a listed one. */
    ghost predicate Listed(C: seq<ItemSet>)
      reads this
    {
      && |C| > 0 && IsClosure(g, [Item(0, 0)], C[0])
      && (forall k :: 0 <= k < |C| ==> C[k] in cidhash && cidhash[C[k]] == k)
      && (forall J :: J in cidhash ==> 0 <= cidhash[J] < |C| && C[cidhash[J]] == J)
      && (forall k :: 0 <= k < |C| ==> GoodSet(g, C[k]))
      && (forall k :: 1 <= k < |C| ==> Reached(C, k))
    }

    /** Item set k is what goto gave for an earlier one. */
    ghost predicate Reached(C: seq<ItemSet>, k: int)
      requires 0 <= k < |C|
      reads this`trie
    {
      exists i, x :: ReachedBy(C, k, i, x)
    }

    ghost predicate ReachedBy(C: seq<ItemSet>, k: int, i: int, x: Symbol)
      requires 0 <= k < |C|
      reads this`trie
    {
      0 <= i < k && C[k] != [] && Cached(C[i], x, C[k])
    }

    /** Everything about goto is known: what lr0_items() leaves behind for the table construction. */
    ghost predicate Complete(C: seq<ItemSet>)
      reads this
    {
      Valid() && Listed(C) && forall k, x :: 0 <= k < |C| ==> Followed(C[k], x)
    }

    method Items() returns (C: seq<ItemSet>)
      requires g.WellFormed() && trie == map[] && memo == map[] && cidhash == map[]
      modifies this
      ensures Complete(C)
    {
      var I0 := Closure(g, [Item(0, 0)]);
      C := [I0];
      cidhash := map[I0 := 0];
      var i := 0;
      while i < |C|
        invariant 0 <= i <= |C| && Valid() && Listed(C)
        invariant forall k, x :: 0 <= k < i ==> Followed(C[k], x)
        decreases AllSets(g) - cidhash.Keys, |C| - i
      {
        var I := C[i];
        i := i + 1;
        C := FollowAll(C, I);
      }
    }

    /** The transitions of one item set. */
    method FollowAll(C0: seq<ItemSet>, I: ItemSet) returns (C: seq<ItemSet>)
      requires Valid() && Listed(C0) && I in C0
      modifies this
      ensures Valid() && Listed(C) && C0 <= C
      ensures forall x :: Followed(I, x)
      ensures forall J, x :: old(Followed(J, x)) ==> Followed(J, x)
      ensures C == C0 || old(AllSets(g) - cidhash.Keys) > AllSets(g) - cidhash.Keys
    {
      C := C0;
      var asyms := UsedSymbols(g, I);
      for m := 0 to |asyms|
        invariant Valid() && Listed(C) && C0 <= C
        invariant forall k :: 0 <= k < m ==> Followed(I, asyms[k])
        invariant forall J, x :: old(Followed(J, x)) ==> Followed(J, x)
        invariant C == C0 || old(AllSets(g) - cidhash.Keys) > AllSets(g) - cidhash.Keys
      {
        C := Follow(C, I, asyms[m]);
      }
      forall x ensures Followed(I, x) {
        if x in asyms {
          var k :| 0 <= k < |asyms| && asyms[k] == x;
        }
      }
    }

    method Follow(C0: seq<ItemSet>, I: ItemSet, x: Symbol) returns (C: seq<ItemSet>)
      requires Valid() && Listed(C0) && I in C0
      modifies this
      ensures Valid() && Listed(C) && C0 <= C
      ensures Followed(I, x)
      ensures forall J, y :: old(Followed(J, y)) ==> Followed(J, y)
      ensures C == C0 || old(AllSets(g) - cidhash.Keys) > AllSets(g) - cidhash.Keys
    {
      C := C0;
      ghost var i :| 0 <= i < |C| && C[i] == I;
      assert GoodSet(g, C[i]);
      var J := Goto(I, x);
      if J == [] || J in cidhash {
        return;
      }
      cidhash := cidhash[J := |C|];
      C := C + [J];
      InAllSets(g, J);
      assert C[i] == I;
      forall k | 1 <= k < |C| ensures Reached(C, k) {
        if k < |C0| {
          assert Reached(C0, k);
          var h, y :| ReachedBy(C0, k, h, y);
          assert C[h] == C0[h];
          assert ReachedBy(C, k, h, y);
        } else {
          assert ReachedBy(C, k, i, x);
        }
      }
    }
  }

  ghost predicate GoodSet(g: Grammar, J: ItemSet) {
    J != [] && ItemsOf(g, J) && NoRepeats(J)
  }

  /** Every item there is. */
  ghost function Universe(g: Grammar): set<Item> {
    set k, d | 0 <= k < |g.productions| && 0 <= d <= |g.productions[k].prod| :: Item(k, d)
  }

  ghost function Sequences(U: set<Item>, n: nat): set<ItemSet> {
    if n == 0 then {[]}
    else Sequences(U, n - 1) + set s, e | s in Sequences(U, n - 1) && e in U :: s + [e]
  }

  /** The finitely many candidates for an item set. */
  ghost function AllSets(g: Grammar): set<ItemSet> {
    Sequences(Universe(g), |Universe(g)|)
  }

  lemma {:induction false} InSequences(U: set<Item>, n: nat, s: ItemSet)
    requires |s| <= n && forall it :: it in s ==> it in U
    ensures s in Sequences(U, n)
  {
    if s == [] {
      if n > 0 { InSequences(U, n - 1, s); }
    } else {
      var last := |s| - 1;
      InSequences(U, n - 1, s[..last]);
      assert s == s[..last] + [s[last]];
    }
  }

  lemma InAllSets(g: Grammar, J: ItemSet)
    requires ItemsOf(g, J) && NoRepeats(J)
    ensures J in AllSets(g)
  {
    DistinctCard(J);
    SubsetCard((set it | it in J), Universe(g));
    InSequences(Universe(g), |Universe(g)|, J);
  }

  predicate Uses(g: Grammar, it: Item, x: Symbol) {
    it.number < |g.productions| && x in g.productions[it.number].prod
  }

  /** The symbols of the productions in I, each once. */
  method UsedSymbols(g: Grammar, I: ItemSet) returns (asyms: seq<Symbol>)
    requires ItemsOf(g, I)
    ensures NoRepeats(asyms)
    ensures forall x :: x in asyms <==> exists it :: it in I && Uses(g, it, x)
    ensures forall x :: Kernel(g, I, x) != [] ==> x in asyms
  {
    asyms := [];
    for k := 0 to |I|
      invariant NoRepeats(asyms)
      invariant forall x :: x in asyms <==> exists i :: 0 <= i < k && Uses(g, I[i], x)
    {
      assert I[k] in I;
      ghost var before := asyms;
      var usyms := g.productions[I[k].number].prod;
      for m := 0 to |usyms|
        invariant NoRepeats(asyms)
        invariant forall x :: x in asyms <==> x in before || x in usyms[..m]
      {
        assert usyms[..m + 1] == usyms[..m] + [usyms[m]];
        if usyms[m] !in asyms {
          asyms := asyms + [usyms[m]];
        }
      }
      assert usyms[..|usyms|] == usyms;
    }
    forall x | Kernel(g, I, x) != [] ensures x in asyms {
      var it := Kernel(g, I, x)[0];
      KernelItems(g, I, x, it);
      var i :| 0 <= i < |I| && I[i] == Item(it.number, it.dot - 1);
      assert Uses(g, I[i], x);
    }
  }

  /** The kernel of goto(I, x), collected in the order of I. */
  method MoveDot(g: Grammar, I: ItemSet, x: Symbol) returns (gs: ItemSet)
    ensures gs == Kernel(g, I, x)
  {
    gs := [];
    for k := 0 to |I|
      invariant gs + Kernel(g, I[k..], x) == Kernel(g, I, x)
    {
      assert I[k..][0] == I[k] && I[k..][1..] == I[k + 1..];
      if Before(g, I[k], x) {
        gs := gs + [Item(I[k].number, I[k].dot + 1)];
      }
    }
  }

  ghost predicate TrieEntry(g: Grammar, K: ItemSet, J: ItemSet) {
    if K == [] then J == [] else IsClosure(g, K, J) && ItemsOf(g, J) && NoRepeats(J)
  }

  /** J is goto(I, x): empty if no item has x after the dot, else a closure of the moved items. */
  ghost predicate Transition(g: Grammar, I: ItemSet, x: Symbol, J: ItemSet) {
    TrieEntry(g, Kernel(g, I, x), J)
  }
}
