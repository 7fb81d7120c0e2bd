# Verification of BitBake's core algorithms

A Dafny 4.11 model of the algorithms in BitBake, in the parser generator PLY that it carries, and in the connect
helper beside it, with proofs of what they are for. `dafny verify dfyconfig.toml` checks everything.

## What is modelled

**The parser generator.** `Digraph` is the one-pass algorithm for strongly connected components that PLY uses to
propagate sets: a class with the numbers `N`, the stack and the list objects `F`, which members of a component and the
caller share. `Grammar`, `First` and `Productive` hold grammars, derivations and the FIRST, nullable and termination
fixpoints. `LR0` builds the collection of item sets through both goto caches, `LRTable` the action and goto tables
with their conflict rules, and `LRParser` is the shift/reduce engine. `Lookaheads` computes the LALR(1) lookaheads by
the relations of DeRemer and Pennello. On these rest the main results: `LRComplete`, that a parser without conflicts
accepts exactly the sentences of the grammar; `LRDecides`, that it comes to a verdict on every input and never shifts
a token that no sentence has in its place; `LALR`, that the computed lookaheads are adequate for that; `LALRExact`,
when they are exact; and `PrecedenceOrder` and `DefaultEntries`, what conflicts come to with and without precedences.
Lists that the source tells apart by identity are told apart by content, which for lists handed out by the trie is the
same. The relations of a search are tabulated before it.

**The run queue.** `CumulativeDepends`, `TaskPruning` and `TaskWeights` are the steps of `prepare`: recursive
dependencies, marking, pruning in place, renumbering, weights and the search for cycles. `TaskSchedulers` orders the
tasks, and `RunQueueExecute` is the executor: a class with the marks, counters and tables of the source and a ghost
log of events. Which children exit, with what status, which stamps are current and which process numbers a fork gets
are parameters. `Signatures` and `TaskHashes` compute the variables and hashes that tasks depend on, and `HashOrder`
says when a hash depends on the order in which a set is listed.

**Task data.** `TaskData` fails files and targets by mutual recursion. Build and runtime targets share one map, keyed
by targets that carry their kind, and the map is scanned in any order.

**The data store.** `CowDict` is the copy-on-write dictionary, `VarLayers` the layers of variables with entries and
lists as heap objects, and `DataStore` puts them together. `StoreCopies` shows on these objects that no change to a
copy is seen in any store that existed before it.

**Protocols.** `FileLock` (any number of processes, one system call at a time, crashes included) and `ParsePipeline`
(feeder, parsers and collector over queues) are state machines; the main results are about every state of every run.

**The rest.** `PRTable` is the table of revision numbers, each SQL statement one step; `Versions`, `VersionOrder` and
`Providers` the order of versions and the choice of files; `Base64` the encoder over a C string and a 32-bit
accumulator. `Finite`, `Paths` and `Options` hold what several of them need.

## Where the code and its description differ

- For a shift that is met after a reduction, `lr_parse_table` documents and follows a rule: the higher of the rule to
  reduce and the token wins (bitbake/lib/ply/yacc.py:2471-2477). For a reduction met after a shift it compares the
  token with the production being shifted instead (bitbake/lib/ply/yacc.py:2417), so the outcome depends on the order
  of the items: `PrecedenceOrder.OrderAgrees`, `PrecedenceOrder.ShiftsThoughTighter`.
- An error that a nonassociative tie enters is stored as no action (bitbake/lib/ply/yacc.py:2428), and so is forgotten
  when another item has an offer: `PrecedenceOrder.ErrorForgotten`.
- INCLUDES is described for productions that start in a state. The code also follows items inside their production
  (bitbake/lib/ply/yacc.py:2222), which adds stray pairs, and with them lookaheads that are not LALR(1):
  `LALRExact.LookaheadsExact`, `LALRExact.StrayLookahead`.
- A lookup in a copy-on-write dictionary prefers an immutable binding anywhere in the chain to a set that is nearer
  (bitbake/lib/bb/COW.py:97-101): `CowDict.LookupNearest` says when that makes a difference, `CowDict.MaskedSet`
  shows one.
- `delVarFlags` on a variable without content removes the local entry, and so brings back what it shadowed
  (bitbake/lib/bb/data_smart.py:396): other flags, unless `VarLayers.FlagsStayDeleted`, as in
  `VarLayers.FlagsComeBack`; and, as `delVar` leaves an empty entry in a copy (bitbake/lib/bb/data_smart.py:318), the
  content of a variable that was deleted, unless `VarLayers.ContentStays`, as in `VarLayers.ContentComesBack`.
- `renameVar` extends the list that waits for the new name by whatever waits for the old one, so that text is taken
  apart into letters, and raises half way where text stands for the new name: `DataStore.DataSmart.RenameVar`. A
  variable renamed to its own name is deleted (bitbake/lib/bb/data_smart.py:306): `DataStore.RenameSeen`.
- Exporting a revision table leaves out rows with an empty version (bitbake/lib/prserv/db.py:206): `PRTable.FaithfulIff`.
- Values need not rise strictly after an import that makes two checksums tie: `PRTable.RisesUnlessTied`,
  `PRTable.TiesHappen`.
- Hashes can depend on the iteration order of sets where two dependencies have the same cleaned name:
  `HashOrder.TextIffTiesAgree`, `HashOrder.TwinTables`.

## Model

| member | source | states |
|---|---|---|
| Digraph.Digraph | bitbake/lib/ply/yacc.py:1898-1928 | For every finite X, relation R into X and function F', on lists as shared objects: the search ends; each x gets a list that F' handed out for a node of its own component, which holds at least the union of F'(y) over all y reachable from x, cycles included, and exactly that where F' hands out separate lists |
| Digraph.Search.Traverse | bitbake/lib/ply/yacc.py:1908-1928 | One call leaves x and all it reaches either closed with their final sets or on the stack above the point where it started, and changes no entry that was there before; the lists follow the sets as far as they are separate |
| Digraph.Search.FollowEdge | bitbake/lib/ply/yacc.py:1915-1920 | Following one edge, recursion included, lowers N[x] to N[y] and takes over F[y], and keeps the invariant of the search |
| Digraph.Search.MergeEdge | bitbake/lib/ply/yacc.py:1919-1920 | The symbols of F[y] that F[x] has not are appended to the list object of x, in order, which every node that shares the list sees |
| Digraph.Search.Close | bitbake/lib/ply/yacc.py:1921-1928 | Popping a component gives every member MAXINT and the set of its root, down to and including the root |
| Digraph.ComponentExact | bitbake/lib/ply/yacc.py:1921-1928 | When N[x] is still x's own number, F[x] is the exact union for every member of the component on top of the stack |
| Digraph.ClosingInv | bitbake/lib/ply/yacc.py:1921-1928 | Closing a component keeps the invariant: numbering, exactness of closed nodes, reachability along the stack |
| Digraph.EdgeInv | bitbake/lib/ply/yacc.py:1915-1920 | Merging an edge keeps the invariant of the search |
| Digraph.SolutionEquation | bitbake/lib/ply/yacc.py:1898-1928 | The result solves F(x) = F'(x) U U{F(y) : x R y} |
| Digraph.SolutionLeast | bitbake/lib/ply/yacc.py:1898-1928 | It lies below every solution of those inclusions |
| First.FirstSets.FirstOf | bitbake/lib/ply/yacc.py:1647-1674 | FIRST of a form from the sets found so far: a symbol is in it exactly if it is in the set of a symbol all of whose predecessors can be empty; '<empty>' exactly if all can |
| First.FirstSets.ComputeFirst | bitbake/lib/ply/yacc.py:1681-1709 | The rounds end, and leave the exact FIRST sets |
| First.SaturatedExact | bitbake/lib/ply/yacc.py:1698-1707 | Sets that no rule adds to any more: t is in First[A] iff A derives a form that starts with t, '<empty>' iff A derives the empty form |
| First.Complete | bitbake/lib/ply/yacc.py:1698-1707 | Whatever a form derives is foretold by saturated sets, for derivations of any length |
| First.SoundForms | bitbake/lib/ply/yacc.py:1647-1674 | What sound sets say of a form is borne out by a derivation |
| Productive.ComputeNullable | bitbake/lib/ply/yacc.py:2093-2107 | The result is exactly the set of nonterminals that derive the empty form |
| Productive.NullableAgrees | bitbake/lib/ply/yacc.py:2093-2107 | A nonterminal is nullable iff its FIRST set has '<empty>' |
| Productive.InfiniteCycles | bitbake/lib/ply/yacc.py:1518-1573 | The result lists exactly the nonterminals that derive no string of terminals |
| Productive.ClosedExact | bitbake/lib/ply/yacc.py:1534-1561 | A set of symbols that is sound and closed under the rules is the set of productive symbols |
| LR0.Closure | bitbake/lib/ply/yacc.py:1977-1993 | Starts with the given items, each further item is called for by an earlier one, no item is missing or repeated |
| LR0.ClosureLeast | bitbake/lib/ply/yacc.py:1977-1993 | The closure lies within every set of items that has the kernel and is closed |
| LR0.KernelOfClosure | bitbake/lib/ply/yacc.py:1977-1993 | Two kernels with the same closure are the same sequence: the kernel can be read off the closure |
| LR0.MoveDot | bitbake/lib/ply/yacc.py:2015-2024 | Collects the items of a set moved over a symbol, in order |
| LR0.Collection.Goto | bitbake/lib/ply/yacc.py:2002-2033 | Returns the closure of the moved items, the same list for the same kernel sequence whenever it is asked for, through both caches |
| LR0.Collection.Items | bitbake/lib/ply/yacc.py:2036-2063 | The collection is finite and complete: distinct item sets, numbered, each but the first made from an earlier one, and every goto of a listed set listed |
| LRTable.FillTables | bitbake/lib/ply/yacc.py:2391-2536 | Each finished row holds, symbol by symbol, what the state's offers come to in the order in which its items make them |
| PrecedenceOrder.ConflictEntry | bitbake/lib/ply/yacc.py:2408-2477 | What a finished table holds where one reduction and one shift are at odds, by levels and associativities alone: the token, right-associative at level 0 if undeclared, against the rule to reduce if the reduction is heard first, against the rule being shifted if the shift is; the higher level wins, and on a tie the associativity of the rule or of the token says which |
| PrecedenceOrder.OrderAgrees | bitbake/lib/ply/yacc.py:2411-2477 | For all precedences of the rule, the shifted production and the token: the entry is the same in both orders exactly under the stated comparison of levels and associativities |
| PrecedenceOrder.RuleIgnored | bitbake/lib/ply/yacc.py:2417-2418 | With the shift first, whether the reduction wins does not depend on the rule's own precedence |
| PrecedenceOrder.ShiftsThoughTighter | bitbake/lib/ply/yacc.py:2411-2477 | A grammar of which every generated table shifts a token although the rule to reduce binds tighter; in the other order the reduction would win |
| PrecedenceOrder.ErrorForgotten | bitbake/lib/ply/yacc.py:2410-2428 | An error entered for a nonassociative tie gives way to whatever one more item offers |
| PrecedenceOrder.AcceptWins | bitbake/lib/ply/yacc.py:2398-2450 | Accepting replaces whatever was entered before it, and any reduction heard after it is an error of the generation |
| DefaultEntries.EntryByDefault | bitbake/lib/ply/yacc.py:2405-2494 | Where no precedence is declared, for any number of items at odds over a token and in any order: a finished table shifts if some item can shift, and otherwise reduces by a rule that is defined first |
| LRTable.Reduce | bitbake/lib/ply/yacc.py:2408-2454 | A reduce action is entered, dropped or turned into an error by the precedence rules, without losing what earlier items proposed; 'Unknown conflict' arises only against accept |
| LRTable.Shift | bitbake/lib/ply/yacc.py:2458-2497 | The same for a shift action; two shifts never conflict |
| LRTable.RowIsExact | bitbake/lib/ply/yacc.py:2396-2497 | A finished row has an entry exactly for the symbols its items propose; each entry was proposed by an item, and without conflict it is the one proposed |
| LRTable.GotosOf | bitbake/lib/ply/yacc.py:2519-2531 | The goto row has exactly the transitions of the automaton over nonterminals |
| LRTable.Collect | bitbake/lib/ply/yacc.py:2373-2376 | The collection of item sets and its numbering form the LR(0) automaton |
| LRTable.ParseTable | bitbake/lib/ply/yacc.py:2362-2536 | Both tables match the automaton in every state, or some state has an accept/reduce conflict on '$end' |
| LRParser.Handle | bitbake/lib/ply/yacc.py:945-970 | On a path of the automaton, an item of the top state with its dot at d has its first d symbols on top of the stack, and its initial form in the state below them |
| LRParser.InitialLeadsOn | bitbake/lib/ply/yacc.py:973 | In every state that holds an initial item of a rule, the rule's left-hand side has a transition |
| LRParser.GotoExists | bitbake/lib/ply/yacc.py:973 | After popping a right-hand side the goto entry that is looked up exists |
| LRParser.ReductionExtends | bitbake/lib/ply/yacc.py:945-974 | A reduction whose remaining input is terminal prepends one step of a rightmost derivation |
| LRParser.ReduceSound | bitbake/lib/ply/yacc.py:945-974 | Reducing keeps the stack a path of the automaton and the reductions a derivation of the tokens read |
| LRParser.Acceptance | bitbake/lib/ply/yacc.py:1018-1020 | Acceptance happens with exactly the start symbol on the stack and all input read |
| LRParser.RightmostDerives | bitbake/lib/ply/yacc.py:912-1020 | Reductions that form a rightmost derivation are a derivation in the grammar |
| LRParser.Parser.Fetch | bitbake/lib/ply/yacc.py:919-926 | Takes the next token, or '$end' once the input is used up, and keeps the invariant |
| LRParser.Parser.ShiftToken | bitbake/lib/ply/yacc.py:933-943 | Shifting keeps the stack a path of the automaton |
| LRParser.Parser.ReduceBy | bitbake/lib/ply/yacc.py:945-1015 | Reducing finds its right-hand side on the stack and keeps the invariant |
| LRParser.Parser.Step | bitbake/lib/ply/yacc.py:914-1020 | Every round keeps the invariant, does what the specification of a round says, and rejects only where the table has no action |
| LRParser.Parse | bitbake/lib/ply/yacc.py:912-1020 | Acceptance means the reductions reversed are a rightmost derivation of exactly the tokens read |
| LRParser.GenerateAndParse | bitbake/lib/ply/yacc.py:2362-2536 | From a grammar to a verdict: a parser with generated tables accepts only what the grammar derives, whatever the lookahead sets |
| LRComplete.RightmostExists | bitbake/lib/ply/yacc.py:912-1020 | Every sentence that the grammar derives has a rightmost derivation |
| LRComplete.Viable | bitbake/lib/ply/yacc.py:912-1020 | In every rightmost derivation the automaton reads what stands before the rightmost nonterminal, and waits for it |
| LRComplete.StepCloser | bitbake/lib/ply/yacc.py:914-1020 | On the way back through a derivation each round shifts the next token or makes the next reduction, and comes closer to acceptance by one |
| LRComplete.AcceptsExactly | bitbake/lib/ply/yacc.py:912-1020 | With tables that have no conflicts, built for adequate lookaheads, the parser accepts a token string iff the grammar derives it, within as many rounds as its derivation has steps and it has tokens, and one more |
| LRComplete.Unambiguous | bitbake/lib/ply/yacc.py:912-1020 | Then no sentence has two rightmost derivations: the reductions made are the derivation |
| LRDecides.StackCompletes | bitbake/lib/ply/yacc.py:912-1020 | Where all nonterminals are productive, whatever is on the stack can be completed to a form of some rightmost derivation |
| LRDecides.SameReductions | bitbake/lib/ply/yacc.py:945-1015 | Reductions made in a row facing any symbol are made as well facing the first symbol of what completes the stack that they give |
| LRDecides.ReductionsEnd | bitbake/lib/ply/yacc.py:914-1020 | Without conflicts, in no configuration, facing no symbol, a right one or a wrong one, do reductions go on for ever |
| LRDecides.Decides | bitbake/lib/ply/yacc.py:914-1020 | Without conflicts the parser comes to a verdict on every string of tokens, and keeps it: accepted if the grammar derives it, rejected if not |
| LRDecides.LalrDecides | bitbake/lib/ply/yacc.py:2338-2536 | So it does with the lookaheads that the generator computes |
| LRDecides.Recognize | bitbake/lib/ply/yacc.py:914-1020 | The loop without a limit on its rounds ends, with that verdict |
| LRDecides.ReadsOnlyPrefixes | bitbake/lib/ply/yacc.py:933-943 | Whatever the lookaheads and resolved conflicts: after any number of rounds what has been shifted is the beginning of a sentence, so that a token that cannot stand there is never shifted |
| LRDecides.NoneInfinite | bitbake/lib/ply/yacc.py:3203-3206 | With a rule for every nonterminal, the generator reports no infinite recursion iff all nonterminals are productive |
| Lookaheads.FindTransitions | bitbake/lib/ply/yacc.py:2120-2129 | Lists each transition on a nonterminal once |
| Lookaheads.DrRelation | bitbake/lib/ply/yacc.py:2140-2156 | Exactly the terminals that can be shifted right after the transition, and '$end' after the start symbol |
| Lookaheads.ReadsRelation | bitbake/lib/ply/yacc.py:2164-2177 | Exactly the transitions that follow on a nonterminal that can vanish |
| Lookaheads.FollowItem | bitbake/lib/ply/yacc.py:2225-2250 | Following a production from an item finds exactly the pairs whose remaining symbols can vanish, and its last state |
| Lookaheads.LookbackIncludes | bitbake/lib/ply/yacc.py:2207-2267 | Both dictionaries hold exactly the LOOKBACK and INCLUDES pairs as the code defines them, stray ones included |
| Lookaheads.ComputeReadSets | bitbake/lib/ply/yacc.py:2281-2285 | The Read lists hold the least solution over READS from the direct reads, each transition with a list of its own where READS has no cycle but from a transition to itself |
| Lookaheads.ComputeFollowSets | bitbake/lib/ply/yacc.py:2303-2307 | Appending to the Read lists themselves, gives lists with at least the least solution over the recorded pairs from the Read sets, and exactly that where the Read lists are separate |
| Lookaheads.StillSeparate | bitbake/lib/ply/yacc.py:1921-1928 | A search over separate lists leaves separate lists where READS has no cycle but from a transition to itself |
| Lookaheads.LalrSets | bitbake/lib/ply/yacc.py:2281-2355 | Both searches one after the other, the second on the lists that the first left |
| Lookaheads.AddLookaheads | bitbake/lib/ply/yacc.py:2321-2329 | An item has an entry for a state iff some transition looks back to it, with the union of their Follow sets |
| Lookaheads.AddLalrLookaheads | bitbake/lib/ply/yacc.py:2338-2355 | All steps together |
| LALR.Origin | bitbake/lib/ply/yacc.py:2257-2307 | Every nonterminal of a form in a rightmost derivation is the start symbol or was introduced by a rule, of which the rest has become what stands after it |
| LALR.ReadHas | bitbake/lib/ply/yacc.py:2281-2285 | Whatever the rest of an item can start with, through nullable symbols and rules, is in the Read set |
| LALR.FollowHas | bitbake/lib/ply/yacc.py:2303-2307 | Whatever stands after the rightmost nonterminal in a rightmost derivation is in its Follow set |
| LALR.LalrAdequate | bitbake/lib/ply/yacc.py:2338-2355 | The computed lookaheads have every symbol that can be next when it is time to reduce |
| LALR.LookupDefined | bitbake/lib/ply/yacc.py:2405 | Every complete item of a rule has lookaheads for its state: the lookup cannot raise a KeyError |
| LALR.Generate | bitbake/lib/ply/yacc.py:2362-2536 | LALR tables with adequate lookaheads, unless a state has an accept/reduce conflict, which is a conflict |
| LALR.GenerateAndParse | bitbake/lib/ply/yacc.py:2362-2536 | From a grammar to a verdict, with computed lookaheads: accepts only what the grammar derives, and without conflicts everything it derives |
| LALRExact.ItemsAreValid | bitbake/lib/ply/yacc.py:1977-2063 | Every item of a state is valid for every path that leads there: some rightmost derivation applies its rule at that place |
| LALRExact.ProperExact | bitbake/lib/ply/yacc.py:2303-2307 | Where all nonterminals are productive, INCLUDES without stray pairs gives exactly the symbols that follow in some derivation after some path to the state |
| LALRExact.FollowExactIff | bitbake/lib/ply/yacc.py:2222-2307 | Of the lists as they are shared, where READS has no cycle but from a transition to itself: the Follow lists are exact iff for every stray pair what follows its second transition without stray pairs already follows its first |
| LALRExact.LookaheadsExact | bitbake/lib/ply/yacc.py:2222-2329 | Of the lists as they are shared, where READS has no cycle but from a transition to itself: the computed lookaheads of a rule in a state are the LALR(1) ones iff the stray pairs that the reduction draws add nothing to what follows without them where it looks back to |
| LALRExact.StrayLookahead | bitbake/lib/ply/yacc.py:2222-2250 | A grammar with a lookahead that no derivation needs, and so with a shift/reduce conflict where there is none |
| CumulativeDepends.Accumulate | bitbake/lib/bb/runqueue.py:518-533 | The double loop leaves, for each file, exactly the tasks reachable by steps from a file to its tasks' direct dependencies and from a task to its file |
| CumulativeDepends.ViaOneMore | bitbake/lib/bb/runqueue.py:527-533 | One round of the outer loop extends reachability through the tasks below k to those up to k |
| CumulativeDepends.ResolveRecursive | bitbake/lib/bb/runqueue.py:540-549 | A recursive dependency adds exactly the reachable tasks of the given names, never the task itself |
| TaskPruning.RunQueueData.MarkActive | bitbake/lib/bb/runqueue.py:559-572 | Marks exactly what the task needs, directly or not, in addition to what was marked |
| TaskPruning.RunQueueData.MarkTargets | bitbake/lib/bb/runqueue.py:574-596 | A task is marked iff some target needs it |
| TaskPruning.RunQueueData.Prune | bitbake/lib/bb/runqueue.py:602-615 | Deleting in place leaves the marked entries of every parallel list in order; the map sends a kept task to its new number and a deleted one to -1 |
| TaskPruning.RankOnto | bitbake/lib/bb/runqueue.py:602-615 | Every new number is the number of a kept task |
| TaskPruning.RankMonotone | bitbake/lib/bb/runqueue.py:602-615 | The renumbering keeps the order of kept tasks, and so is one-to-one |
| TaskPruning.KeptDependencies | bitbake/lib/bb/runqueue.py:631-638 | A kept task depends on kept tasks only: 'Invalid mapping' cannot be reached |
| TaskPruning.RunQueueData.Remap | bitbake/lib/bb/runqueue.py:632-639 | Renumbers every dependency, and fails exactly if one of them was deleted |
| TaskPruning.RemapInduces | bitbake/lib/bb/runqueue.py:602-639 | After pruning and renumbering, the queue is the subgraph induced by the marked tasks |
| TaskPruning.RunQueueData.ReverseDepends | bitbake/lib/bb/runqueue.py:644-646 | The reverse dependencies are the inverse of the dependencies |
| TaskPruning.RunQueueData.FindEndpoints | bitbake/lib/bb/runqueue.py:650-658 | The endpoints are exactly the tasks on which none depends; tasks that depend on each other are reported |
| TaskPruning.RunQueueData.Prepare | bitbake/lib/bb/runqueue.py:551-658 | All steps together: the subgraph induced by the tasks the targets need, its inverse and its endpoints |
| TaskWeights.CalculateTaskWeights | bitbake/lib/bb/runqueue.py:312-369 | The sweep ends; problem_tasks are exactly the tasks from which reverse dependencies reach a cycle; elsewhere the weight is the number of reverse-dependency walks to endpoints |
| TaskWeights.NoProblemsIffAcyclic | bitbake/lib/bb/runqueue.py:349-367 | No problem is reported iff the dependencies are acyclic |
| TaskWeights.AllEndWalks | bitbake/lib/bb/runqueue.py:335-346 | Away from cycles the walks counted are all walks to endpoints, of whatever length |
| TaskWeights.EndWalksAre | bitbake/lib/bb/runqueue.py:335-346 | The walks counted are exactly the walks along reverse dependencies that end at endpoints |
| TaskWeights.StuckReachesCycle | bitbake/lib/bb/runqueue.py:349-354 | A task that the sweep never finishes has reverse dependencies that lead to a cycle |
| TaskWeights.RankedNoCycle | bitbake/lib/bb/runqueue.py:335-346 | A task that it finishes meets no cycle |
| TaskSchedulers.SpeedOrder | bitbake/lib/bb/runqueue.py:130-147 | The priority map lists every task once, heaviest first, among equal weights the later task first |
| TaskSchedulers.CompletionOrder | bitbake/lib/bb/runqueue.py:159-181 | The tasks of a file follow its first task at once |
| TaskSchedulers.FilesTogether | bitbake/lib/bb/runqueue.py:159-181 | Between two tasks of a file stand only tasks of that file |
| TaskSchedulers.TogetherOrder | bitbake/lib/bb/runqueue.py:168-181 | Files come in the order of their first tasks, and the tasks of a file in the order that they had |
| TaskSchedulers.TogetherKeeps | bitbake/lib/bb/runqueue.py:159-181 | Regrouping loses and adds no task |
| RunQueueExecute.RunQueueExecuteTasks.constructor | bitbake/lib/bb/runqueue.py:1221-1231 | The initial state satisfies the invariant: exactly the tasks without dependencies are buildable |
| RunQueueExecute.RunQueueExecuteTasks.TaskCompleteOutright | bitbake/lib/bb/runqueue.py:1310-1330 | Marks the task complete, and as buildable exactly the waiting tasks that depend on it and now have all dependencies complete |
| RunQueueExecute.RunQueueExecuteTasks.TaskSkip | bitbake/lib/bb/runqueue.py:1349-1354 | A skipped task counts as completed and skipped, with active unchanged in the end |
| RunQueueExecute.RunQueueExecuteTasks.NextBuildableTask | bitbake/lib/bb/runqueue.py:100-114 | The first task in priority order that is buildable, not yet taken and whose stamp no live child works on; none only if there is none |
| RunQueueExecute.RunQueueExecuteTasks.Next | bitbake/lib/bb/runqueue.py:116-121 | A task is offered only while fewer children than threads are alive |
| RunQueueExecute.RunQueueExecuteTasks.ProcessWaitpid | bitbake/lib/bb/runqueue.py:1044-1063 | Collecting the exit of a child keeps the invariant; its task fails, and is not complete, exactly if the status is not 0, whether aborting is on or off, and completes otherwise; only that child is gone |
| RunQueueExecute.RunQueueExecuteTasks.TakeUp | bitbake/lib/bb/runqueue.py:1366-1402 | A task is skipped if it is covered or its stamp is current, stamped without running if it is marked so, and given a child otherwise; the log says which, and the invariant is kept |
| RunQueueExecute.RunQueueExecuteTasks.Execute | bitbake/lib/bb/runqueue.py:1356-1427 | One round keeps the invariant; a run that ends here has the outcome of Finished, and the sanity errors are silent exactly if the dependencies are acyclic; a round does nothing only if no task may be taken up or all threads are busy, and no live child has exited |
| RunQueueExecute.RunQueueExecuteTasks.ExecuteRounds | bitbake/lib/bb/runqueue.py:1356-1427 | Over any number of rounds with any environments, at most two rounds for each task do something, and one more; everything in the log agrees with what the environment said in some round; a run that ends is Finished, as failed iff some collected exit had a status other than 0 |
| RunQueueExecute.RunQueueExecuteTasks.Finish | bitbake/lib/bb/runqueue.py:1084-1100 | Winding down starts no task, collects at most one exit a call, and ends as failed iff some task failed |
| RunQueueExecute.Accounting | bitbake/lib/bb/runqueue.py:43-69 | Completed, failed and active tasks add up to the tasks marked as running |
| RunQueueExecute.StartKeeps | bitbake/lib/bb/runqueue.py:1393-1401 | Starting a child keeps the invariant: stamps of live children stay distinct, active stays within the threads |
| RunQueueExecute.SkipKeeps | bitbake/lib/bb/runqueue.py:1370-1379 | Skipping keeps the invariant |
| RunQueueExecute.NoExecKeeps | bitbake/lib/bb/runqueue.py:1382-1390 | Stamping a task without running it keeps the invariant |
| RunQueueExecute.CompletionKeeps | bitbake/lib/bb/runqueue.py:1052-1062 | The successful exit of a child keeps the invariant |
| RunQueueExecute.FailureKeeps | bitbake/lib/bb/runqueue.py:1052-1060 | The failure of a child keeps the invariant |
| RunQueueExecute.LogFacts | bitbake/lib/bb/runqueue.py:1310-1402 | A task is taken up only after all its dependencies were done, and done only after it was taken up |
| RunQueueExecute.LogBound | bitbake/lib/bb/runqueue.py:1310-1402 | At most two things happen for each task: it is taken up once, and done or broken once |
| RunQueueExecute.EventsAre | bitbake/lib/bb/runqueue.py:1044-1402 | The failed tasks are exactly those whose child exited with a status other than 0; the tasks done are those skipped, stamped, or whose child exited with 0 |
| RunQueueExecute.ExitMarks | bitbake/lib/bb/runqueue.py:1044-1063 | After an exit the task is complete iff the status was 0, and failed iff it was not |
| RunQueueExecute.CompleteClosed | bitbake/lib/bb/runqueue.py:1310-1330 | Whatever a complete task needs, directly or not, is complete, in every reachable state |
| RunQueueExecute.Outcome | bitbake/lib/bb/runqueue.py:1356-1427 | At rest, a task is complete iff it neither failed, nor needs a failed task, nor needs a cycle |
| RunQueueExecute.NoProblems | bitbake/lib/bb/runqueue.py:1417-1425 | With no failures, the 'never buildable', 'never ran' and 'never completed' errors are all absent iff the dependencies are acyclic |
| FileLock.StepKeeps | bitbake/lib/bb/utils.py:311-349 | Every system call of every process keeps the invariant: compatible locks, separate open files, a holder's file on disk |
| FileLock.Reachable | bitbake/lib/bb/utils.py:311-349 | It holds in every state of every run of any number of processes, crashes included |
| FileLock.MutualExclusion | bitbake/lib/bb/utils.py:311-349 | While a process holds the lock, until it unlinks, the path names the file it locked; two holders at once both hold it shared |
| FileLock.UnlinksItsOwn | bitbake/lib/bb/utils.py:341-346 | Releasing removes the locked file itself, on which nobody else has a lock |
| FileLock.FailsOnlyWithoutRetry | bitbake/lib/bb/utils.py:311-335 | Taking the lock fails only for a caller who asked not to retry |
| FileLock.NoDeadlock | bitbake/lib/bb/utils.py:311-349 | While some process is at work, one holds the lock or can take a step that brings it on |
| FileLock.UncontendedSucceeds | bitbake/lib/bb/utils.py:301-330 | A caller whom nobody interrupts, on a path without a conflicting lock, is never stuck and holds the lock in the mode that it asked for after opening, locking and checking the file |
| FileLock.CheckDecides | bitbake/lib/bb/utils.py:323-330 | Whoever else runs, a step gives the lock to a process exactly if it looks at the path and finds the file that it has locked |
| FileLock.AnsweredSoon | bitbake/lib/bb/utils.py:311-335 | A caller who asked not to retry has its answer after at most six steps of its own, whatever others do in between |
| FileLock.AloneRemoves | bitbake/lib/bb/utils.py:337-349 | A holder that shares the lock with nobody and is not interrupted is promoted, removes the file, unlocks and closes it; the path names nothing then |
| FileLock.SharerLeaves | bitbake/lib/bb/utils.py:337-349 | A holder that shares the lock cannot be promoted; it unlocks and closes the file and leaves the path and the other locks alone |
| TaskData.TaskData.FailFnid | bitbake/lib/bb/taskdata.py:474-494 | From a state that is consistent but for the removals under way, the recursion ends in one that is consistent but for those; lists lose exactly the files that failed |
| TaskData.TaskData.RemoveTarget | bitbake/lib/bb/taskdata.py:496-534 | Marks the target and fails every file that needs it, under the same conditions |
| TaskData.TaskData.Fail | bitbake/lib/bb/taskdata.py:474-494 | From a consistent state, consistency is restored and the newly failed files are exactly those doomed by the failure |
| TaskData.TaskData.FailTarget | bitbake/lib/bb/taskdata.py:496-534 | The same for a target without a provider, starting from the files that need it |
| TaskData.DoomedClosed | bitbake/lib/bb/taskdata.py:474-534 | The doomed files are closed: a file that needs a target all of whose providers are doomed is doomed or had failed |
| TaskData.DoomedFail | bitbake/lib/bb/taskdata.py:474-534 | In any consistent state reached from there every doomed file has failed: the newly failed files are the least such set |
| CowDict.CowDict.Overlay | bitbake/lib/bb/COW.py:56-62 | A copy starts empty on top of its base, and sees what the base holds |
| CowDict.CowDict.GetMutable | bitbake/lib/bb/COW.py:70-88 | The nearest set is returned; unless read only, a set of the dictionary's own, copied if it was inherited; the bases keep their contents |
| CowDict.CowDict.GetItem | bitbake/lib/bb/COW.py:97-113 | Immutable bindings of the whole chain come before sets, the delete marker reads as missing |
| CowDict.CowDict.SetItem | bitbake/lib/bb/COW.py:63-68 | Binds an immutable value in this dictionary only |
| CowDict.CowDict.DelItem | bitbake/lib/bb/COW.py:115-116 | A deleted key reads as missing, whatever the bases hold; they are unchanged |
| CowDict.CowDict.HasKey | bitbake/lib/bb/COW.py:126-130 | Has a key iff a lookup finds something |
| CowDict.CowDict.Add | bitbake/lib/bb/COW.py:70-88 | Adding to the set under a key changes this dictionary's own set and no set of its bases |
| CowDict.CowDict.Remove | bitbake/lib/bb/COW.py:70-88 | So does removing from it |
| CowDict.LookupNearest | bitbake/lib/bb/COW.py:97-106 | A lookup gives the nearest binding exactly if no immutable binding lies behind a nearer set |
| CowDict.MaskedSet | bitbake/lib/bb/COW.py:97-106 | A set in a copy with an immutable value behind it in the base: the copy answers with the value |
| CowDict.CopyInvisible | bitbake/lib/bb/COW.py:82-88 | The copy that a reader gets of an inherited set changes no answer |
| VarLayers.Layer.FindVar | bitbake/lib/bb/data_smart.py:221-229 | Finds the entry of the nearest layer that has the variable |
| VarLayers.Layer.MakeShadowCopy | bitbake/lib/bb/data_smart.py:231-240 | Gives the layer an entry of its own with the flags seen so far; the layers above are unchanged |
| VarLayers.Layer.SetFlag | bitbake/lib/bb/data_smart.py:324-327 | Changes one flag in this layer's own entry and nothing above |
| VarLayers.Layer.DelFlag | bitbake/lib/bb/data_smart.py:341-349 | Deletes a flag in this layer, unless the variable has none |
| VarLayers.Layer.DelFlags | bitbake/lib/bb/data_smart.py:383-396 | Keeps the content only; without content this layer's entry goes, and what it shadowed comes back |
| VarLayers.FlagsStayDeleted | bitbake/lib/bb/data_smart.py:383-396 | After delVarFlags no flag is seen beside the content iff content was seen, or what the entry shadows has no other flag |
| VarLayers.ContentStays | bitbake/lib/bb/data_smart.py:383-396 | After delVarFlags the content is the same, or missing as before, iff content was seen, or what the entry shadows has none |
| VarLayers.FlagsComeBack | bitbake/lib/bb/data_smart.py:383-396 | Deleting the flags of a variable without content in a copy makes a flag of the base seen again |
| VarLayers.ContentComesBack | bitbake/lib/bb/data_smart.py:316-396 | A variable with content, deleted in a copy, has its content back when its flags are deleted after that |
| VarLayers.Layer.GetFlag | bitbake/lib/bb/data_smart.py:329-339 | Reads a flag, with the weak default for the content, and never hands out a list that the store holds |
| VarLayers.FlagDeleted | bitbake/lib/bb/data_smart.py:341-349 | A deleted flag is not seen any more, in whatever layer it was; all other flags and variables are |
| VarLayers.WeakDefault | bitbake/lib/bb/data_smart.py:329-339 | Only content has a default, the weak one, where there is no content and the caller does not refuse it |
| DataStore.KeywordFrom | bitbake/lib/bb/data_smart.py:42-42 | The first keyword in a name, what precedes it and the override that it names; none exactly if there is none |
| DataStore.KeywordIs | bitbake/lib/bb/data_smart.py:42-42 | What precedes the keyword, the keyword, an underscore and the override make up the name |
| DataStore.OverrideIs | bitbake/lib/bb/data_smart.py:262-267 | The override of a name is what follows its last underscore |
| DataStore.DataSmart.CreateCopy | bitbake/lib/bb/data_smart.py:399-406 | A copy is a live overlay of all three parts of a store, with nothing of its own |
| DataStore.CopySeesOriginal | bitbake/lib/bb/data_smart.py:399-406 | What a copy inherits is what the original sees at that time, not a snapshot |
| DataStore.DataSmart.SetVar | bitbake/lib/bb/data_smart.py:242-275 | Content and override tracker, or a list of waiting values and keyword tracker, in this store only; what was set is read back, and no other flag or variable changes; fails only where a flag holds text instead of a list |
| DataStore.DataSmart.DelVar | bitbake/lib/bb/data_smart.py:316-322 | Nothing of the variable is seen any more, whatever the layers above hold; every other variable is looked up as before, and the name is dropped from the tracker of its override and from no other |
| DataStore.DataSmart.RenameVar | bitbake/lib/bb/data_smart.py:285-306 | For every two names: content and tracked names move to the new name, or the content is noted under the keyword in it; what waited for the old name stands, letter by letter if it is text, in order behind what waited for the new one, in new lists; nothing is seen under the old name, the new one reads as the content, and other variables are looked up as before; in this store only. Stops, with what was done until then, exactly where text stands in the place of a list to extend |
| DataStore.DelVarSeen | bitbake/lib/bb/data_smart.py:316-322 | Deleting a variable, as lookups and trackers see it |
| DataStore.SetContentSeen | bitbake/lib/bb/data_smart.py:242-275 | Setting a variable, as lookups and trackers see it |
| DataStore.NoteSeen | bitbake/lib/bb/data_smart.py:243-257 | Noting a value for later, as lookups and trackers see it |
| DataStore.RenameSeen | bitbake/lib/bb/data_smart.py:285-306 | Renaming to any name, as lookups see it |
| DataStore.WaitsInOrder | bitbake/lib/bb/data_smart.py:293-299 | All that waited for the new name comes first, and all that waited for the old one behind it, each in its order |
| DataStore.Track | bitbake/lib/bb/data_smart.py:254-268 | A name is added to a tracked set of the store's own |
| DataStore.Isolated | bitbake/lib/bb/data_smart.py:242-396 | On values: after any sequence of changes to a store a variable that is not named is looked up as before |
| StoreCopies.WorkOnCopy | bitbake/lib/bb/data_smart.py:242-406 | On objects: a store is copied and the copy changed by any sequence of operations, those that raise half way included; the store, and every other store that existed, stays valid and keeps its variables and trackers; the copy is what the changes make of an overlay |
| StoreCopies.WorkOnCopyOfCopy | bitbake/lib/bb/data_smart.py:242-406 | The same for a copy of a copy: neither the copy nor the original sees what is done to it |
| StoreCopies.UnnamedSame | bitbake/lib/bb/data_smart.py:221-229 | What no operation names is looked up in the copy as it was in the original |
| DataStore.SetFlagSeen | bitbake/lib/bb/data_smart.py:324-339 | A flag that was set is read back, and no other flag changes |
| ParsePipeline.Conserved | bitbake/lib/bb/cooker.py:1454-1513 | Every step, time-outs on full queues included, conserves the files, counted by any weight |
| ParsePipeline.StepKeeps | bitbake/lib/bb/cooker.py:1454-1641 | Every step keeps the invariant, also of sentinels against stopped parsers |
| ParsePipeline.EndsComplete | bitbake/lib/bb/cooker.py:1627-1641 | The generator ends only when every file has been delivered exactly as often as it was to be parsed |
| ParsePipeline.FinishedRun | bitbake/lib/bb/cooker.py:1587-1618 | After shutdown every file is delivered and every process stopped |
| ParsePipeline.NoStall | bitbake/lib/bb/cooker.py:1454-1641 | Until the run has finished, some process can take a step that is no time-out |
| ParsePipeline.StepFalls | bitbake/lib/bb/cooker.py:1454-1641 | Every step that is no time-out and no look at an empty queue lowers a bound on the steps to come |
| ParsePipeline.UsefulRunEnds | bitbake/lib/bb/cooker.py:1454-1641 | From any state of any run there are at most as many such steps in a row as the bound says |
| ParsePipeline.Finishes | bitbake/lib/bb/cooker.py:1454-1641 | Every run can be brought to its end, after shutdown, by such steps |
| PRTable.PRTable.GetValue | bitbake/lib/prserv/db.py:45-103 | Answers from the table or inserts one above the maximum, with and without history |
| PRTable.PRTable.ImportOne | bitbake/lib/prserv/db.py:105-159 | Inserts or raises a row without history, inserts once with history, and returns the value that stands |
| PRTable.PRTable.Export | bitbake/lib/prserv/db.py:185-213 | Lists exactly the matching rows with a version, without history only those at the maximum |
| PRTable.RoundTrip | bitbake/lib/prserv/db.py:129-213 | Importing an export into an empty table gives the same top rows for every key with a version |
| PRTable.CopyAnswersAlike | bitbake/lib/prserv/db.py:70-213 | The copy gives the same answers as the original to every later sequence of questions |
| PRTable.FaithfulIff | bitbake/lib/prserv/db.py:205-206 | The copy answers every sequence of questions as the original does exactly if no row has an empty version |
| PRTable.NeverDecreases | bitbake/lib/prserv/db.py:70-153 | The values for a version and architecture never decrease, whatever is asked and imported in between |
| PRTable.RisesUnlessTied | bitbake/lib/prserv/db.py:70-97 | A change of checksum gets a higher value exactly if the new one does not already stand at the maximum too |
| PRTable.RisesStrictly | bitbake/lib/prserv/db.py:70-97 | In a table that has only been asked it always does |
| PRTable.TiesHappen | bitbake/lib/prserv/db.py:70-153 | Two checksums imported with one value: asking for one and then the other gives no rise |
| PRTable.HistoryKeeps | bitbake/lib/prserv/db.py:45-68 | With history a checksum keeps its first value whatever is asked and imported later, and a new one gets a value above all others |
| PRTable.AskedIs | bitbake/lib/prserv/db.py:70-97 | Without history, a checksum at the maximum is answered with it and nothing changes; any other is put just above the maximum, or at 0 if there is none, and no other row changes |
| PRTable.HistoryAskedIs | bitbake/lib/prserv/db.py:45-68 | With history, a checksum that has a value is answered with it; a new one is put just above the maximum, or at 0 |
| PRTable.ImportedRow | bitbake/lib/prserv/db.py:105-153 | An import raises the row to the value and never lowers it; with history it only adds a row that is not there |
| PRTable.AnswerCounts | bitbake/lib/prserv/db.py:70-97 | In a table that has only been asked, the answer is the number of times that the checksum has changed for the version and architecture |
| Base64.MakeBase64String | scripts/oe-git-proxy-socks.c:2330-2363 | For every NUL-terminated string the buffer holds the encoding of section 4 of RFC 4648, padding included, and a NUL, with the accumulator wrapping at 32 bits |
| Base64.RoundTrip | scripts/oe-git-proxy-socks.c:2330-2363 | A decoder takes every encoding back to the bytes it came from |
| Base64.DecodeExact | scripts/oe-git-proxy-socks.c:2330-2363 | Whatever the decoder accepts is the encoding of what it yields |
| Base64.EncodeAt | scripts/oe-git-proxy-socks.c:2346-2361 | Letter by letter the encoding is the sextets of the zero-padded input, the unfilled ones overwritten by '=' |
| Base64.PushBits | scripts/oe-git-proxy-socks.c:2347-2354 | Six bits taken after a push do not depend on bits lost by wrapping around |
| Base64.SameNumber | scripts/oe-git-proxy-socks.c:2346-2361 | Four sextets and the three bytes that they come from are the same number of 24 bits |
| Base64.TestVectors | scripts/oe-git-proxy-socks.c:2330-2363 | Test vectors of section 10 of RFC 4648 |
| Versions.ExplodeVersion | bitbake/lib/bb/utils.py:41-61 | The loop yields the token of every piece in order |
| Versions.PiecesCover | bitbake/lib/bb/utils.py:41-61 | The pieces joined are the version, and each has its token |
| Versions.RunsWhole | bitbake/lib/bb/utils.py:41-61 | No run of digits or of letters is cut in two |
| Versions.VercmpPart | bitbake/lib/bb/utils.py:77-98 | Compares the tokens one by one, and ends |
| Versions.Antisymmetric | bitbake/lib/bb/utils.py:77-98 | Exchanging the versions changes the sign, and they compare equal exactly if their tokens are equal |
| Versions.Transitive | bitbake/lib/bb/utils.py:77-98 | The order is transitive |
| Versions.Continuation | bitbake/lib/bb/utils.py:81-98 | A version that goes on with '~' sorts before the one that ends there, any other continuation after it |
| Versions.VercmpOrder | bitbake/lib/bb/utils.py:100-109 | The order on epoch, version and revision is antisymmetric, with equality only for equal parts |
| Versions.VercmpTransitive | bitbake/lib/bb/utils.py:100-109 | And transitive |
| VersionOrder.ValueIsDecimal | bitbake/lib/bb/utils.py:46-50 | A run of digits stands for its decimal value |
| VersionOrder.TokensRead | bitbake/lib/bb/utils.py:41-61 | The tokens are a reading of the version in whole runs: numbers by their decimal value, words, tildes and other characters |
| VersionOrder.OnlyReading | bitbake/lib/bb/utils.py:41-61 | There is no other reading of it |
| VersionOrder.CompareDecides | bitbake/lib/bb/utils.py:77-98 | The first difference decides: a tilde before the end of the version and before all else, the end before everything else, smaller numbers before larger ones, numbers before words before other characters, words character by character |
| VersionOrder.VercmpDecides | bitbake/lib/bb/utils.py:100-109 | The lower epoch is earlier, then the earlier version, then the earlier revision |
| Providers.FindLatestProvider | bitbake/lib/bb/providers.py:181-198 | Returns the first file that none is better than, by preference and then version |
| Providers.BetterOrder | bitbake/lib/bb/providers.py:192-196 | Better is asymmetric, and not being better is transitive |
| Providers.BetterIs | bitbake/lib/bb/providers.py:192-196 | A file is better with a higher preference, or with an equal one and a later version |
| Providers.SortPriorities | bitbake/lib/bb/providers.py:74-99 | One list per priority, priorities descending, each made of its groups by descending preference |
| Providers.KeepsEveryFile | bitbake/lib/bb/providers.py:84-99 | Every file is kept, as often as it was given |
| Providers.TierOrdered | bitbake/lib/bb/providers.py:92-97 | A list holds files of its priority only, by descending preference |
| Providers.GroupInOrder | bitbake/lib/bb/providers.py:84-91 | A group holds just the files of its priority and preference, in the order in which they were given |
| Signatures.GenerateDependencies | bitbake/lib/bb/data.py:322-335 | The worklist ends with the dependencies of every task and of all they lead to on record |
| Signatures.BaseDependencies | bitbake/lib/bb/siggen.py:93-104 | The dependencies hashed for a task are exactly the variables that are not whitelisted and are reached through variables that are not |
| TaskHashes.SignatureGenerator.GetTaskHash | bitbake/lib/bb/siggen.py:151-167 | Fails exactly if a dependency that is kept has no hash yet; otherwise the hash follows from the task's data and the hashes of its kept dependencies in sorted order |
| TaskHashes.HashAll | bitbake/lib/bb/runqueue.py:708-719 | With acyclic dependencies the loop ends, each task is hashed once and after its dependencies, and hashing never fails |
| TaskHashes.SortedOnce | bitbake/lib/bb/siggen.py:156-156 | With distinct cleaned names the dependencies can be sorted in one way only |
| TaskHashes.CleanIs | bitbake/lib/bb/siggen.py:239-244 | A name is cleaned to what follows its last slash, behind the variant if the file is virtual |
| TaskHashes.HashText | bitbake/lib/bb/siggen.py:151-167 | With all dependencies kept and ascending cleaned names, the hash is the digest of the task's own data and then their hashes in that order |
| HashOrder.TextIffTiesAgree | bitbake/lib/bb/siggen.py:156-164 | With digests of one length, the text digested for a task is the same for every listing of its dependencies iff those that are kept and have equal cleaned names have equal hashes |
| HashOrder.HashesUnique | bitbake/lib/bb/siggen.py:151-167 | Two tables that obey the rule for every task are the same if in one of them such dependencies have equal hashes |
| HashOrder.DistinctUnique | bitbake/lib/bb/siggen.py:151-167 | So they are where the dependencies of every task have distinct cleaned names |
| HashOrder.TwinTables | bitbake/lib/bb/siggen.py:156-167 | Two tasks of equally named files, and a task that depends on both: two tables of hashes of one length obey the rule everywhere and give the last task different hashes |

## Left out

- LRParser.Parse: the loop is cut off after a given number of rounds, because with conflicts resolved the engine need not end; what is proved holds for every number of rounds. `LRDecides.Recognize` is the loop without a limit.
- LRDecides.Decides: for tables without conflicts; with conflicts resolved by precedence only `LRParser.Parse` and `LRDecides.ReadsOnlyPrefixes` hold.
- LRParser.GenerateAndParse: for any lookaheads, the ones of the SLR method included, only that what is accepted is derived; `LALR.GenerateAndParse` says more for the computed ones.
- LALR.Generate: gives up on 2**63 - 1 or more transitions, which `digraph` could not number.
- CowDict.CowDict.Add: stands for asking for the set and adding to it, and is stated for keys that hold a set.
- CowDict.CowDict.Remove: likewise; removing a name that is not in the set raises in the source and changes nothing here.
- LALRExact.LookaheadsExact: where READS has a longer cycle, its members share one list to which the search for Follow appends, and the lookaheads may have more; `LALR.LalrAdequate`, that they have enough, holds all the same.
- LALRExact.FollowExactIff: likewise.
- StoreCopies.WorkOnCopy: an operation that raises is followed by the next one, as if the caller caught it.
- TaskData.TaskData.Fail: with aborting off; the exception for a required target without providers is not modelled.
- FileLock.MutualExclusion: the conversion of a shared lock to an exclusive one is taken to be atomic, inode numbers are not reused while open, and nobody outside the protocol touches the path.
- RunQueueExecute.RunQueueExecuteTasks.Execute: which children exit is up to the environment, so that a run may wait for ever; `ExecuteRounds` bounds the rounds that do something.
- TaskHashes.HashAll: takes the names of tasks to be unique and the digest to be any function of its text.
- DataStore.KeywordFrom: names hold no line breaks, at which the regular expression would stop.
- TaskHashes.CleanIs: names have a slash, as those of files with absolute paths do; without one the source raises.
- Versions.ExplodeVersion: versions hold no line breaks, and letters and digits are those of ASCII.
- Providers.SortPriorities: for the list of files of one package; how the list is found is not modelled.
- Base64.MakeBase64String: allocation does not fail.
- FOLLOW sets of the SLR method (`compute_follow`).
- Error recovery, grammar actions that raise, the lists of reported conflicts, tables written to files, the lexer.
- Literal tokens that share the name of a nonterminal: a well-formed grammar has none.
- Resolving targets to tasks before `prepare`, stamps on disk, the set-scene queue, and the report of dependency chains.
- The set of covered tasks, which the executor is given.
- Adding providers and tasks to the task data, regular expressions over target names.
- Expansion of variables, the expansion cache, `finalize`, flags handed out without a copy by `getVarFlags`.
- Fork, pipes, signals, events, logging, pickling, SQL and file system calls other than the lock protocol's.
- Parsing errors in the pipeline, which end it by an unclean shutdown.
- The rest of the connect helper.
