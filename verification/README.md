# The SQLite 3.15.2 front end of WCDBOptimizedSQLCipher, modelled in Dafny

The project models the parser that the repository vendors in `Pods/WCDBOptimizedSQLCipher`: the
LEMON push-down driver of `parse.c`, the semantic actions that link or rewrite structures, and the
packed keyword hash of `keywordhash.h`.

**The driver.** `Tables` describes the generator's packed tables and a certificate for them: the
items of each state, the symbol that leads into it, and a weight for every symbol. `WellFormed`
says what the tables must satisfy; every result about the driver holds for all well-formed tables
and all token sequences. `Machine` and `Driver` give the driver as a machine on values, with a log
of everything that happens; `Parser` is the class with the fixed array and the top index, and each
of its routines is proved to compute the machine's step. `Growing` is the class for the build whose
stack is reallocated. `Grammar` defines rightmost derivations without mentioning the automaton, and
`History`, `Runs`, `Theorems` and `Refinement` connect the two: soundness of acceptance, safety,
linear work, conservation of entries, restart, depth, and the comparison with the automaton that
keeps nothing pending. `Transactions` is a part of the SQL grammar in the generator's format, with
the proof that it is well formed; `PendingReturn` is an invented one-rule table that separates the
driver from the plain automaton. `EmptyRule` is a run of `Transactions` that overflows on an empty
rule, and `Nesting` a part of the grammar that does so at every depth. `Depth` bounds the stack by the
input, and `Acceptance` says what is accepted in terms of the input. `Completeness` and `Language`
add the converse: with the tokens that may follow each item also certified, the parser accepts exactly
the sentences, and `TransactionsLanguage` shows that `Transactions` is such a parser.

**The actions.** `Compound` and `SelectChain` build compound SELECT statements, on values and on the
heap. `Expressions`, `ExpressionMeaning` and `SpanActions` build expressions: the tree, its meaning
in three-valued logic, and its span of source text; `ExpressionShape` says what form the tree has.
`TriggerSteps` and `ForeignKeys` are the two
smaller ones.

**The keywords.** `KeywordTables` holds the generated tables, `KeywordHash` the hash and the
comparison, `KeywordRows` the facts about each row, `TokenNames` the names of the token types, and
`KeywordLookup` the lookup itself.

Check the whole project with `dafny verify dfyconfig.toml`.

Where code and documentation disagree the model follows the code:

- The span of `expr IN table(...)` ends at the table's name, not at the parenthesis that closes the
  arguments (`parse.c` 3466-3478); an empty argument list is cut off as well.
- An overflow on an empty rule does not run the destructor of the top entry: the decrement on entry
  (`parse.c` 1816) is meant for a shift, which has already moved the index up.

A pending reduction could by itself accept and so lose the next token, but only on tables that
shift-reduce by a rule for the start symbol (`Quiet` in `Refinement`). The repository's tables do not:
the only rule for `input` is rule 276 (`parse.c` 2177), and its shift-reduce code 948 is not among the
entries of `yy_action` (400-558).

## Model

| member | source | states |
|---|---|---|
| Parser.ShiftActionCases | Pods/WCDBOptimizedSQLCipher/parse.c:1721-1778 | the look-ahead action is: a pending reduce code itself, else the entry for the token, else for its fallback, else for ANY (never for end of input), else the state's default |
| Parser.FindShiftAction | Pods/WCDBOptimizedSQLCipher/parse.c:1721-1778 | the lookup loop computes that action for every laid-out table, in at most two rounds, with every index in range, also the wildcard index whose lower-bound check is compiled out |
| Parser.FindReduceAction | Pods/WCDBOptimizedSQLCipher/parse.c:1784-1809 | the unchecked goto lookup finds the entry whenever there is one |
| Machine.ItemIsOnStack | Pods/WCDBOptimizedSQLCipher/parse.c:1897-2233 | if a state holds a rule with its dot at d, the d entries up to it spell the first d symbols and the state below them holds the rule unstarted |
| Machine.PendingIsReady | Pods/WCDBOptimizedSQLCipher/parse.c:343-365 | a pending reduce code on top means the whole right side of its rule is on top |
| Machine.ActionFits | Pods/WCDBOptimizedSQLCipher/parse.c:1721-1778 | on a linked stack the action found is a shift that fits the state below, a reduction the stack is ready for, or the error action |
| Driver.GotoFits | Pods/WCDBOptimizedSQLCipher/parse.c:1794-1806 | after any reduction the goto exists, and either fits the uncovered state or accepts at the base |
| Driver.ReduceKeepsInv | Pods/WCDBOptimizedSQLCipher/parse.c:2241-2282 | a reduction meets the driver's assertions, keeps the stack invariant and makes the stack heavier unless it empties it; it accepts only at the base |
| Driver.Feed | Pods/WCDBOptimizedSQLCipher/parse.c:4089-4185 | one call ends (the weight left to gain shrinks) and leaves a stack that satisfies the invariant |
| Driver.SpellsWeight | Pods/WCDBOptimizedSQLCipher/parse.c:3895-3952 | entries that spell a right side, up to fallback, ANY and optimized-out unit rules, weigh no more than it |
| Theorems.ReachableIsSafe | Pods/WCDBOptimizedSQLCipher/parse.c:4060-4201 | after any tokens, in every round of the next call: the depth bound holds, only the top entry may hold a pending reduction, entries above the base are not in state 0, an action is a shift, a reduction or an error, and any reduction is by a rule that is not optimized out, has its right side on the stack, its goto in a row that has gotos, and accepts only if it empties the stack |
| History.ShiftIsExplained | Pods/WCDBOptimizedSQLCipher/parse.c:1857-1893 | a shift keeps: the stack's symbols derive the tokens shifted since the base by the rules fired since the base |
| History.ReduceIsExplained | Pods/WCDBOptimizedSQLCipher/parse.c:3955-3967 | so does a reduction, with the optimized-out rules of its goto put back into the derivation |
| Runs.RunIsRecorded | Pods/WCDBOptimizedSQLCipher/parse.c:4060-4201 | every run keeps the derivation, the conservation of entries and the work bound together |
| Theorems.AcceptanceIsSound | Pods/WCDBOptimizedSQLCipher/parse.c:4089-4201 | whenever a run accepts, the tokens shifted since the base, each read as itself, its fallback or ANY, are a sentence; the rules fired, reversed, are its rightmost derivation up to optimized-out unit rules; and they number at most k per token plus a constant, the limit times the largest weight |
| Acceptance.KeptIsShifted | Pods/WCDBOptimizedSQLCipher/parse.c:4089-4201 | what counts as shifted is the input since the last call that ended at the base, without the tokens that were rejected |
| Acceptance.AcceptedInputIsSentence | Pods/WCDBOptimizedSQLCipher/parse.c:4089-4201 | so if the call for a token accepts, the tokens of the input kept before it are the sentence |
| Acceptance.CallEnds | Pods/WCDBOptimizedSQLCipher/parse.c:4145-4185 | each call ends by shifting, rejecting or losing its token, and accepts at most what was shifted before it |
| Completeness.ParseTree | Pods/WCDBOptimizedSQLCipher/parse.c:4089-4201 | with closure conditions on the certificate (`Closed`), a syntax tree that an item expects is parsed into one entry that holds the tree's value, by shifts and reductions only, in a stack with room for the tree's height |
| Completeness.TreeIsAccepted | Pods/WCDBOptimizedSQLCipher/parse.c:4089-4201 | a tree of the start symbol is accepted at the end of its input, with its own rule and value |
| Completeness.DerivationForest | Pods/WCDBOptimizedSQLCipher/parse.c:3955-3973 | every derivation of a token string, however its tokens are read, has such a tree |
| Language.SentenceIsAccepted | Pods/WCDBOptimizedSQLCipher/parse.c:4089-4201 | so every sentence is accepted, without a rejected token, by every stack that is deep enough |
| Language.AcceptedIsSentence | Pods/WCDBOptimizedSQLCipher/parse.c:4089-4201 | an input accepted that way is a sentence: all its tokens, each under some reading, derive from the start symbol |
| Language.AcceptsExactlySentences | Pods/WCDBOptimizedSQLCipher/parse.c:4089-4201 | some stack accepts the tokens if and only if they are a sentence |
| Language.BoundedParserDecides | Pods/WCDBOptimizedSQLCipher/parse.c:1871-1883 | where the input bounds the stack, any stack of that size accepts exactly the sentences |
| Language.MeaningIsUnique | Pods/WCDBOptimizedSQLCipher/parse.c:3955-3967 | two syntax trees over the same tokens build the same semantic value, so no sentence has two meanings |
| TransactionsLanguage.TransactionsAreClosed | Pods/WCDBOptimizedSQLCipher/parse.c:400-870 | the sub-grammar's tables meet the closure conditions, keyword fallback and default reductions included |
| TransactionsLanguage.TransactionsDecide | Pods/WCDBOptimizedSQLCipher/parse.c:4089-4201 | on them a stack of 2n + 5 entries accepts n tokens if and only if they are a sentence |
| TransactionsLanguage.TransactionsAreUnambiguous | Pods/WCDBOptimizedSQLCipher/parse.c:1897-2233 | and no sentence of the sub-grammar has two meanings |
| Theorems.WorkIsLinear | Pods/WCDBOptimizedSQLCipher/parse.c:4089-4201 | at any time the reductions since the base are bounded by k per token shifted plus a constant, and the semantic values on the stack are built from exactly those tokens by exactly those rules, in order |
| Theorems.Balance | Pods/WCDBOptimizedSQLCipher/parse.c:1669-1682 | for a log in which each event takes what is on top: pushed = on the stack + consumed by reductions + destroyed + dropped, as multisets |
| Theorems.CallDropsExactly | Pods/WCDBOptimizedSQLCipher/parse.c:1814-1822 | a call drops an entry undestroyed if and only if in one of its rounds the look-ahead calls for an empty rule on a full stack; that round is the last, and the entry is its top |
| Theorems.EntriesAreConserved | Pods/WCDBOptimizedSQLCipher/parse.c:1692-1706 | freeing the parser after any run accounts for each entry ever pushed exactly once, and the entries dropped undestroyed are exactly the tops of those rounds |
| Nesting.EveryDepthDrops | Pods/WCDBOptimizedSQLCipher/parse.c:2262-2273 | for every depth, 99 included, there is an input of nested parentheses on which the rules of `anylist` drop the top entry undestroyed |
| EmptyRule.BeginIsDropped | Pods/WCDBOptimizedSQLCipher/parse.c:2262-2273 | the whole log of such a run, on a stack with room for two entries: `BEGIN TRANSACTION` drops the entry of BEGIN and destroys the one below |
| Theorems.CallHandlesToken | Pods/WCDBOptimizedSQLCipher/parse.c:4089-4201 | a call deals with its token exactly once: shifted, rejected, or lost because the call ended at the base |
| Theorems.RunHandlesInput | Pods/WCDBOptimizedSQLCipher/parse.c:4089-4201 | over a whole run the tokens dealt with are the input, in order |
| Refinement.FeedIgnoresLog | Pods/WCDBOptimizedSQLCipher/parse.c:4060-4201 | a call depends on the live entries only |
| Refinement.RestartIsFresh | Pods/WCDBOptimizedSQLCipher/parse.c:1516-1540 | after accepting or overflowing, every later run is that of a freshly allocated parser |
| Refinement.DeeperStackAgrees | Pods/WCDBOptimizedSQLCipher/parse.c:1814-1832 | a call overflows at most once and then ends at the base; a call that does not overflow goes the same way with any deeper stack |
| Refinement.DeeperRunAgrees | Pods/WCDBOptimizedSQLCipher/parse.c:1871-1883 | until the fixed stack overflows, any deeper stack holds the same configuration |
| Refinement.PendingRefinesPlain | Pods/WCDBOptimizedSQLCipher/parse.c:3955-3967 | a call of the driver, with pending reductions fired, is a call of the automaton that shifts and reduces at once, unless the pending reductions alone empty the stack, in which case the token is lost |
| Refinement.PendingRefinesExactly | Pods/WCDBOptimizedSQLCipher/parse.c:986-996 | the two agree on a call if and only if the pending reductions do not by themselves return the stack to its base |
| Refinement.QuietSettles | Pods/WCDBOptimizedSQLCipher/parse.c:3955-3967 | on tables in which no action shift-reduces by a rule for the start symbol, pending reductions never empty a reachable stack |
| Refinement.QuietRun | Pods/WCDBOptimizedSQLCipher/parse.c:400-558 | so on such tables no input ever reaches the exception |
| Refinement.RunRefinesPlain | Pods/WCDBOptimizedSQLCipher/parse.c:343-365 | on such tables, for every input, the driver with its pending reductions fired holds the same stack and the same log as the plain automaton |
| Transactions.TransactionsRefinePlain | Pods/WCDBOptimizedSQLCipher/parse.c:343-365 | the sub-grammar's tables are such tables |
| PendingReturn.SecondTokenIsLost | Pods/WCDBOptimizedSQLCipher/parse.c:4089-4185 | the condition on the tables is needed: an invented one-rule table that violates it, and an input on which the two machines differ |
| Parser.Parser.Alloc | Pods/WCDBOptimizedSQLCipher/parse.c:1516-1540 | a new parser is at its base with an empty log |
| Parser.Parser.PopParserStack | Pods/WCDBOptimizedSQLCipher/parse.c:1669-1682 | the top entry leaves the stack and is destroyed |
| Parser.Parser.PopAll | Pods/WCDBOptimizedSQLCipher/parse.c:1692-1706 | everything above the base is destroyed, top first |
| Parser.Parser.StackOverflow | Pods/WCDBOptimizedSQLCipher/parse.c:1814-1832 | one error, the stack at its base, everything above it destroyed except, for an empty rule, the top entry, which the first decrement drops |
| Parser.Parser.Shift | Pods/WCDBOptimizedSQLCipher/parse.c:1857-1893 | the new array, top index and error count are those of the shift step, also when it overflows |
| Parser.Parser.Reduce | Pods/WCDBOptimizedSQLCipher/parse.c:2241-2282 | likewise for a reduction, its entry check for empty rules included |
| Parser.Parser.FinishReduce | Pods/WCDBOptimizedSQLCipher/parse.c:3955-3973 | likewise for the goto after a reduction |
| Parser.Parser.SyntaxError | Pods/WCDBOptimizedSQLCipher/parse.c:4000-4017 | one error and the token gone; the stack is untouched |
| Parser.Parser.Parse | Pods/WCDBOptimizedSQLCipher/parse.c:4060-4201 | one call of the imperative driver computes the machine's call, and terminates |
| Parser.Parser.ParseAll | Pods/WCDBOptimizedSQLCipher/parse.c:4060-4201 | feeding a whole input to a new parser ends in the configuration of the run that the theorems speak of |
| Parser.Parser.Free | Pods/WCDBOptimizedSQLCipher/parse.c:1692-1706 | everything above the base is destroyed, top first |
| Growing.GrowingParser.Grow | Pods/WCDBOptimizedSQLCipher/parse.c:1467-1492 | the size becomes twice the old plus 100; all entries survive |
| Growing.GrowingParser.Shift | Pods/WCDBOptimizedSQLCipher/parse.c:1876-1883 | growing first, a shift does what it does on a fixed stack with room |
| Growing.GrowingParser.Reduce | Pods/WCDBOptimizedSQLCipher/parse.c:2269-2282 | growing first, so does a reduction by an empty rule |
| Growing.GrowingParser.Parse | Pods/WCDBOptimizedSQLCipher/parse.c:4060-4201 | while a fixed stack would not overflow, the growing one ends each call in the same configuration |
| Growing.GrowingParser.ParseAll | Pods/WCDBOptimizedSQLCipher/parse.c:4060-4201 | on a whole input it ends where a fixed stack of any size ends that does not overflow on it |
| Depth.DepthByTokens | Pods/WCDBOptimizedSQLCipher/parse.c:1871-1883 | where symbols that derive nothing cannot pile up, the stack is bounded by a constant times the tokens it covers |
| Depth.EveryInputFits | Pods/WCDBOptimizedSQLCipher/parse.c:1467-1492 | on such tables every input has a depth from which on no stack overflows, and all end alike |
| Transactions.TransactionsAreBounded | Pods/WCDBOptimizedSQLCipher/parse.c:400-870 | the sub-grammar's tables are such tables |
| Growing.GrowingParser.ParseAny | Pods/WCDBOptimizedSQLCipher/parse.c:4060-4201 | so on any input the growing parser ends where every deep enough fixed one ends, without an overflow |
| Growing.NoOverflowAhead | Pods/WCDBOptimizedSQLCipher/parse.c:1871-1883 | a call that does not overflow has room in its next step |
| Transactions.TransactionsAreWellFormed | Pods/WCDBOptimizedSQLCipher/parse.c:396-971 | a sub-grammar of the statement list, in packed tables with overlapping rows, satisfies every condition the theorems require |
| Transactions.SemicolonIsAccepted | Pods/WCDBOptimizedSQLCipher/parse.c:4089-4201 | on it, `;` is shift-reduced, lifted over an optimized-out rule and accepted |
| Compound.BuildKeepsMeaning | Pods/WCDBOptimizedSQLCipher/parse.c:2703-2796 | for every compound statement and every meaning of cores, operators and the removal of duplicates, the chain evaluated along pPrior is the left-associative meaning, a term being rid of duplicates if and only if its arm says DISTINCT, a multi-row VALUES on the right being one operand and a leading one the UNION ALL of its rows |
| Compound.ArmFlags | Pods/WCDBOptimizedSQLCipher/parse.c:2797-2806 | each term carries SF_Distinct, SF_All or SF_Values if and only if its own arm is DISTINCT, ALL or a row of VALUES; a VALUES behind an operator is a subquery of exactly its rows |
| Compound.LinkedKeepsMeaning | Pods/WCDBOptimizedSQLCipher/parse.c:2689-2702 | marking the terms of the finished chain does not change that |
| Compound.HeadFlag | Pods/WCDBOptimizedSQLCipher/parse.c:2713-2796 | the head carries the multi-row flag if and only if the whole statement is a VALUES of two or more rows |
| Compound.OperandFlag | Pods/WCDBOptimizedSQLCipher/parse.c:2706-2713 | an operand is a chain of several terms if and only if its head carries that flag, so wrapping it never reports too many terms |
| Compound.OnlyHeadIsMarked | Pods/WCDBOptimizedSQLCipher/parse.c:2781-2796 | no other term carries the flag |
| Compound.ChainLength | Pods/WCDBOptimizedSQLCipher/parse.c:2703-2796 | the chain has one term for each arm and one more for each further row of a leading VALUES |
| SelectChain.ChainIsAcyclic | Pods/WCDBOptimizedSQLCipher/parse.c:90-105 | a pPrior chain that ends visits no node twice |
| SelectChain.ParserDoubleLinkSelect | Pods/WCDBOptimizedSQLCipher/parse.c:90-105 | on any chain of two or more: each node's prior points back to it through pNext, the head's pNext is null, every node is marked compound, pPrior is unchanged, and the error is raised if and only if the head is not multi-row and the length exceeds a positive limit |
| SelectChain.Join | Pods/WCDBOptimizedSQLCipher/parse.c:2716-2728 | linking a node in front of a chain on the heap |
| SelectChain.ReduceRow | Pods/WCDBOptimizedSQLCipher/parse.c:2781-2796 | one more VALUES row |
| SelectChain.Wrap | Pods/WCDBOptimizedSQLCipher/parse.c:2706-2713 | a chain of VALUES rows becomes the FROM clause of a new node: intact, doubly linked, and without an error whatever the limit |
| SelectChain.ReduceArm | Pods/WCDBOptimizedSQLCipher/parse.c:2703-2728 | one more arm; a chain on the right becomes such a subquery, no error is reported, and earlier subqueries stay intact |
| SelectChain.BuildNodes | Pods/WCDBOptimizedSQLCipher/parse.c:2703-2796 | the actions of a whole statement leave a chain of nodes that, subqueries followed through the heap, is the value-level chain; hasCompound is set if and only if some operator is not UNION ALL |
| SelectChain.ReduceSelect | Pods/WCDBOptimizedSQLCipher/parse.c:2689-2702 | for every statement the finished chain and each subquery in it are doubly linked, and it is refused if and only if it has an operator and more terms than a positive limit |
| Expressions.LikeRoundTrip | Pods/WCDBOptimizedSQLCipher/parse.c:3287-3327 | flag and length packed into a LIKE token are both recovered if and only if the length is below 2^31 |
| ExpressionMeaning.CaseListDecodes | Pods/WCDBOptimizedSQLCipher/parse.c:3489-3519 | the flattened CASE list has odd length if and only if there is an ELSE, and decodes to the arms in order and the ELSE |
| ExpressionMeaning.InMeans | Pods/WCDBOptimizedSQLCipher/parse.c:3392-3446 | IN and NOT IN of a list, built as a constant, a comparison or a test, mean membership in three-valued logic |
| ExpressionMeaning.IsMeans | Pods/WCDBOptimizedSQLCipher/parse.c:3338-3353 | IS and IS NOT keep their meaning when a literal NULL turns them into unary tests, which keep the left operand and have no right one |
| ExpressionMeaning.LikeMeans | Pods/WCDBOptimizedSQLCipher/parse.c:3292-3327 | LIKE, with its NOT and ESCAPE, is the function call on swapped operands |
| ExpressionMeaning.BetweenMeans | Pods/WCDBOptimizedSQLCipher/parse.c:3379-3391 | BETWEEN and NOT BETWEEN mean the conjunction of two comparisons and its negation, NULL included |
| ExpressionMeaning.CaseMeans | Pods/WCDBOptimizedSQLCipher/parse.c:3489-3519 | CASE, with or without an operand and an ELSE, yields the value of the first arm that applies, for any number of arms |
| ExpressionMeaning.BuildMeans | Pods/WCDBOptimizedSQLCipher/parse.c:3135-3503 | for every expression the tree the actions build computes what the syntax means, in every world of values and operators |
| ExpressionShape.BuildFits | Pods/WCDBOptimizedSQLCipher/parse.c:148-205 | each node of every tree that is built has exactly the operands its operator calls for: a unary test has no right child, a BETWEEN a list of two, a membership test a subquery or at least two items, and no IS is left that compares with a literal NULL |
| ExpressionShape.BuildNodes | Pods/WCDBOptimizedSQLCipher/parse.c:3135-3503 | the tree has one node for each operation written, so no wrapper is added or lost |
| ExpressionMeaning.AmongIsMembership | Pods/WCDBOptimizedSQLCipher/src/expr.c:2660-2663 | the meaning of IN used here: true if some value is equal, false if all are known to differ, otherwise unknown |
| ExpressionMeaning.ChooseTakesFirst | Pods/WCDBOptimizedSQLCipher/src/expr.c:3801-3819 | the meaning of CASE used here: the value of the first arm that applies, else the ELSE, else NULL |
| Expressions.StartsAtLeftmost | Pods/WCDBOptimizedSQLCipher/parse.c:3135-3503 | every span starts at the first byte of the first token |
| Expressions.SpanIsExact | Pods/WCDBOptimizedSQLCipher/parse.c:3135-3503 | every span ends with its last token, except that an expression ending in `IN table(...)` ends with the table's name, the part after the dot if there is one |
| Expressions.TableArgumentsAreCutOff | Pods/WCDBOptimizedSQLCipher/parse.c:3466-3478 | such expressions exist: the span of `x IN t(y)` stops after `t`, that of `x IN main.t(y)` after `main.t` |
| Expressions.TypeName | Pods/WCDBOptimizedSQLCipher/parse.c:2449-2453 | a type name spans from its first word to the end of its last |
| Expressions.TypeToken | Pods/WCDBOptimizedSQLCipher/parse.c:2435-2448 | with size arguments it ends at the closing parenthesis |
| SpanActions.SpanSet | Pods/WCDBOptimizedSQLCipher/parse.c:112-115 | the start is the first token's also when the output lies over that token; the end is the last token's if and only if the output does not lie over that one (or its length happens to equal the start) |
| ExpressionMeaning.LeafMeans | Pods/WCDBOptimizedSQLCipher/parse.c:121-142 | a leaf built from one token means that token; with it dotted names, scalar subqueries and EXISTS |
| ExpressionMeaning.BinaryMeans | Pods/WCDBOptimizedSQLCipher/parse.c:148-156 | the node over two operands means the operator applied to what they mean |
| ExpressionMeaning.NotExprMeans | Pods/WCDBOptimizedSQLCipher/parse.c:161-165 | the wrapper turns a truth value into its negation exactly when asked for, and NULL stays NULL |
| ExpressionMeaning.UnaryMeans | Pods/WCDBOptimizedSQLCipher/parse.c:170-205 | prefix and postfix operators, COLLATE, CAST to a type and parentheses mean what they mean on the operand |
| ExpressionMeaning.IsTreeMeans | Pods/WCDBOptimizedSQLCipher/parse.c:183-190 | turning IS or IS NOT into a unary test when the right side is a literal NULL does not change its value and drops the right operand; any other IS is left as it is |
| SpanActions.Run | Pods/WCDBOptimizedSQLCipher/parse.c:3135-3503 | the actions of a whole expression, bottom up on stack entries whose token and expression views share their words, leave in the first entry the tree and span that the other results are about |
| KeywordHash.EitherCase | Pods/WCDBOptimizedSQLCipher/keywordhash.h:138 | a byte that equals a letter up to bit 5 hashes like that letter |
| KeywordHash.UnderscoreAndDelete | Pods/WCDBOptimizedSQLCipher/keywordhash.h:144 | the underscore is matched by 0x5F and 0x7F and nothing else |
| KeywordRows.TextIsRight | Pods/WCDBOptimizedSQLCipher/keywordhash.h:27-107 | the overlapping text holds each of the 124 keywords, in bounds |
| KeywordRows.ChainIsRight | Pods/WCDBOptimizedSQLCipher/keywordhash.h:60-83 | each keyword is first in its bucket or follows a later one of the same bucket |
| KeywordRows.KeywordsDiffer | Pods/WCDBOptimizedSQLCipher/keywordhash.h:72-95 | no two keywords of a chain can match the same string |
| KeywordLookup.BucketIsComplete | Pods/WCDBOptimizedSQLCipher/keywordhash.h:138-139 | each keyword is on the chain that starts at its bucket |
| KeywordLookup.MatchHashes | Pods/WCDBOptimizedSQLCipher/keywordhash.h:138 | any string that matches a keyword, in either case, hashes to that keyword's bucket |
| KeywordLookup.KeywordIsUnique | Pods/WCDBOptimizedSQLCipher/keywordhash.h:139-149 | at most one keyword matches a string |
| KeywordLookup.MatchesList | Pods/WCDBOptimizedSQLCipher/keywordhash.h:140-149 | matching the packed text is matching the plain list |
| KeywordLookup.Compare | Pods/WCDBOptimizedSQLCipher/keywordhash.h:141-149 | the byte loop decides whether the string matches the keyword |
| KeywordLookup.KeywordCode | Pods/WCDBOptimizedSQLCipher/keywordhash.h:15-279 | the chain walk yields the code of the matching keyword, the number of the token type that its word calls for, and leaves the default if there is none |
| KeywordLookup.Sqlite3KeywordCode | Pods/WCDBOptimizedSQLCipher/keywordhash.h:280-284 | for every byte string: the code of the listed keyword it spells up to bit 5 of each byte, which names the token type that the word calls for; else TK_ID, which names ID |
| TokenNames.CodeIsNamed | Pods/WCDBOptimizedSQLCipher/keywordhash.h:108-134 | each of the 124 codes is the number of the word's own token type, or of the type it shares: JOIN_KW, LIKE_KW, CTIME_KW, TEMP, COLUMNKW or AUTOINCR |
| TokenNames.IdIsNamed | Pods/WCDBOptimizedSQLCipher/parse.h:55 | TK_ID is the number of ID |
| TriggerSteps.StepsAreDistinct | Pods/WCDBOptimizedSQLCipher/parse.c:3676-3692 | a step list that ends visits no step twice |
| TriggerSteps.ReduceFirst | Pods/WCDBOptimizedSQLCipher/parse.c:3686-3692 | one step is a queue |
| TriggerSteps.ReduceNext | Pods/WCDBOptimizedSQLCipher/parse.c:3676-3684 | appending through pLast keeps the queue: reachable in order from the head, which knows the last step |
| TriggerSteps.ReduceAll | Pods/WCDBOptimizedSQLCipher/parse.c:3676-3692 | any commands, reduced in source order, form a queue in source order |
| TriggerSteps.BuildThenVisit | Pods/WCDBOptimizedSQLCipher/src/trigger.c:285-288 | walking the finished list gives back the commands in source order |
| ForeignKeys.ClauseWins | Pods/WCDBOptimizedSQLCipher/parse.c:2532-2556 | one more clause replaces the action of its own byte only; MATCH and ON INSERT change nothing |
| ForeignKeys.ReduceRefArgs | Pods/WCDBOptimizedSQLCipher/parse.c:2527-2581 | for any clauses: the low byte reads back as the words of the last ON DELETE clause, the next byte as those of the last ON UPDATE clause, NO ACTION if there is none, and no other bit is set |
| ForeignKeys.CodeReadsBack | Pods/WCDBOptimizedSQLCipher/src/pragma.c:241-252 | each action fits one byte, which PRAGMA foreign_key_list reads back as the words it was written in |

## Left out

- The 1570-entry action table, the 332 rules and the 460 states of the full SQL grammar as
  literals. The driver is proved for all well-formed tables; `Transactions` is the concrete part.
- Finding a certificate: the items, weights and follow sets are given with the tables.
- Language.AcceptsExactlySentences: asks for the closure conditions; that the full SQL tables meet
  them is not shown. Where a conflict was settled by precedence or fallback they need not hold.
- Completeness.Value: a leaf's value is its token, so which reading a token had is not part of it,
  nor are the optimized-out unit rules, which run no action.
- The semantic actions inside a run of the driver. A reduction leaves a term that records its rule
  and its arguments; the actions modelled here are proved on their own syntax.
- What `%destructor` code frees. A destroyed entry is an event of the log.
- Token types outside the terminals. The tokenizer never produces them.
- Tracing, high-water tracking, the disabled `YYERRORSYMBOL` branches and the EBCDIC branch of the
  keyword matcher.
- Allocation failure, and with it the branches for null results of `sqlite3PExpr`,
  `sqlite3SelectNew` and `sqlite3ExprListAppend`.
- `sqlite3ExprAnd`'s rewriting of AND with a constant false operand, EP_* flags, affinity,
  collation and expression-height limits. Comparison is an abstract operation on values.
- Register terms (`#1`), RAISE, and the limit on function arguments.
- Code generation: `sqlite3Select`, `sqlite3Insert` and the rest.
- Growing.GrowingParser.Parse: assumes that reallocation succeeds, and speaks of calls on which a
  fixed stack of some limit does not overflow; the limit is the caller's choice.
- ExpressionMeaning.BuildMeans: asks that LIKE tokens be shorter than 2^31 bytes; LikeRoundTrip says
  that this is exactly when the packed flag and length survive.
- Expressions.SpanIsExact: positions are numbers, so address arithmetic and the 32-bit length of a
  token do not wrap.
- SpanActions.BinaryToUnaryIfNull: expression trees are values held by the span, so the node is
  replaced rather than overwritten through a second reference.
- SpanActions.SpanSet: words are unbounded numbers, so a token's length fills the word it shares with
  the start of a span; how wide each is on a given machine is not modelled.
- SelectChain.Wrap: the rows of VALUES hold no subqueries of their own here; what the columns of a
  core or a row contain is not modelled.
- KeywordHash.Hash: the remainder by 127 is taken to be below 127 by the meaning of `%`; a bucket
  number outside the table is not represented.
- The Objective-C sources of the application, which declare user interface only.
