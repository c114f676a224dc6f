# The btyacc parser generator, and one decimal routine, in Dafny

`extern/btyacc` generates Firebird's SQL parser. This project models it from the rules as they are
read to the loop of the parser it writes, one module per source file or stage:

- reading and packing: `SymTab`, `Literal`, `Escapes` (what the escapes of a literal mean), `Reader`, `MidRule`, `PackSymbols`, `PackGrammar`, `FrontEnd`;
- LR(0): `Nullable`, `Warshall`, `Closure`, `LR0`, with the facts about state paths in `Paths`;
- LALR(1): `Buckets`, `GotoMap`, `Relations`, `Digraph` (module `DigraphPass`), `Lalr`;
- actions and tables: `MkPar`, `ConflictTable`, `TokenActions`, `ActionRows`, `GotoColumns`, `Pack`, `Output`;
- the generated parser: `Machine` (one step as a function), `MachineStacks`, `Trials` (the same parser
  with random access to its input instead of a lexeme queue), `LexemeQueue` (the refinement between the
  two), `Skeleton` (the parser as a class, and the theorems about its runs), `Replay` (where replays
  end), `Search` (what a failed run means), `Commits` (what YYVALID commits to), `Invariants` (what every
  action keeps every run keeps), `Reductions` (reductions between two tokens), `Endings` and
  `Halting` (whether runs and searches come to an end);
- generator and parser together: `Firsts` and `Contexts` (what a lookahead is, said of grammar and automaton
  alone), `FollowTokens` and `Completeness` (what the grammar derives is
  accepted), `LeftRecursion` (which grammars have parsers that always end), `LateWinners` (precedence
  winners that are never taken), `Pipeline` (all stages joined), `Operators` (how the trees of operators
  nest);
- two grammars taken through the modelled generator: `LoopingGrammar` (no conflicts, and yet a parser that need not
  end) and `LosingGrammar` (a precedence winner that is never taken);
- `Defs` holds the constants of `defs.h`; `BcdMult` is the independent decimal multiplication of
  `examples/udr`.

All stages meet at `Grammar.Packed.WellFormed`, the encoding laid down by `pack_grammar`. Meaning is
given by parse trees (`Grammar.Parses`, `Grammar.Derives`), so that grammar transformations, the
nullable symbols and the generated parser are all judged against the same definition.

The main results:

- **The whole pipeline is sound** (`Pipeline.ReadGenerateParse`): the answer is that of a run of the
  tables generated from the rules as read. Whatever the generated parser accepts, with any conflicts,
  trials, backtracking and uses of YYVALID, is derived by the grammar as it was written, before rules for
  mid-rule actions were inserted, each token standing for the number the grammar gives it; and no run
  indexes outside a table, a stack or the queue, or aborts a replay.
- **It is complete where that can be asked** (`Completeness.Decides`, `Completeness.EndedRunDecides`,
  carried to the grammar as written by `Pipeline.ReadGenerateParse`): without conflicts the parser accepts
  exactly the sentences of the grammar; where precedence removed nothing and no action calls YYVALID, a
  run that ends has accepted exactly if its input is a sentence.
- **When a parser comes to an end.** It need not, even without conflicts: the parser of `A: A | 'x'`
  reduces A to A for ever on `x x` (`LoopingGrammar.GenerateLoop`), because an action of the final state
  on the end token conflicts only with other actions, not with accepting. On an input with an end token a
  run without conflicts ends exactly if it never stands where two states circle (`Endings.EndsExactly`),
  which is a property of the tables; reductions end on every stack exactly if no transition circles
  (`Reductions.ReductionsEndExactly`). Conflicts or not, a search without YYVALID ends if no alternatives
  circle (`Halting.SearchEnds`), and they do not if no symbol of the grammar derives itself, alone or
  behind symbols that may be empty (`LeftRecursion.NothingCircles`). So the backtracking parser of such a
  grammar is a decision procedure where precedence removed nothing (`Halting.SearchDecides`).
- **The search is exhaustive** (`Search.FailsExactly`): without YYVALID a run fails exactly when every
  sequence of alternatives from the first conflict on ends in an error.
- **YYVALID commits** (`Commits.ValidCommits`, `Commits.CommittedFails`): a reduction of a trial that calls
  YYVALID leaves nothing saved; the choices made become the path, and the parse goes back to where the
  first of them was made. The replay makes them again with nothing saved on the way, and if YYVALID is not
  called again the parse fails exactly if what comes after that reduction is refuted, whatever alternatives
  were left before. Anywhere else a call changes nothing (`Commits.ValidElsewhere`), and the choices of the
  first trial that succeeds are, at each conflict, the first that are not refuted (`Commits.FirstWins`).
- **LALR lookaheads mean what they should** (`Contexts.LookaheadsFollow`, carried to the slots of the table by
  `Pipeline.Generate`): a token is a lookahead of a rule in a state if and only if the goal derives a string
  in which the rule's left-hand side stands before that token, and what is before it, followed by the
  right-hand side, is read from state 0 to the state. The sets computed are those of the reads, includes and
  lookback relations (`Lalr.Lalr`), by a Tarjan-style pass that is exact for any relation
  (`DigraphPass.Digraph`).
- **Operators nest as declared** (`Operators.DeclaredNest`): in the tree of any accepted input, whatever other
  conflicts the grammar has, no phrase with operator c is the last operand of one with operator b if b binds
  tighter, or equally and c is not declared %right; nor is it the first operand if b binds tighter, or equally
  and is declared %right (where c's rule is complete in no state with another). `MkPar.ShiftAgainstReduction`
  says what becomes of the actions themselves.
- **Trial, backtrack and replay** (`Skeleton.RunOnCourse`, `LexemeQueue.StepMeans`, `Replay.ReplayEnds`).
- **Tables** (`Output.WriteTables`): the comb-packed tables, shared rows, default gotos and overlapping
  conflict lists read back as exactly the resolved actions.
- **Conflict resolution** (`MkPar.ResolveRow`) has a closed form; one consequence is a reduction that wins
  by precedence and yet is never taken by the parser. `MkPar.StandingBesideConflict` says exactly when,
  `LateWinners.TakenExactly` that every other standing action is taken, and `LosingGrammar.GenerateLosing`
  shows a grammar with such a state.

## Model

| member | source | states |
|---|---|---|
| Pipeline.ReadGenerateParse | extern/btyacc/main.c:447-460 | reading, packing, generating and parsing end to end: the answer is that of n rounds of the tables generated from the grammar packed from the rules as read; an accepted input is derived from the goal by the grammar as written, with every token under its given number or a fresh one above 256, all of them distinct; without conflicts, or where precedence removed nothing and the run has ended, what is refused is not derived; straight grammars have parsers that end; no run crashes or aborts |
| Pipeline.GenerateAndParse | extern/btyacc/skeleton.c:209-668 | the answer and the tree are those of n rounds of the generated tables: an accepting run yields a parse tree of the goal over exactly the consumed tokens, before an end token; without conflicts an input is accepted in some round exactly if it is a sentence; where precedence removed nothing an ended run without YYVALID has accepted exactly the sentences |
| Pipeline.Generate | extern/btyacc/main.c:447-460 | the stages in order establish the canonical collection, exact nullable symbols, lookahead slots that hold exactly the tokens that can come next, resolved actions and tables that read back as them, within 4*(SRtotal+RRtotal) conflict entries |
| Pipeline.GeneratedObeys | extern/btyacc/output.c:122-153 | where precedence removed nothing the tables generated offer every action of the automaton, and without conflicts no state forks |
| Pipeline.StraightEnds | extern/btyacc/skeleton.c:243-461 | the parser of a grammar in which no symbol derives itself, alone or behind symbols that may be empty, comes to an end on every input with an end token, without conflicts or without YYVALID |
| Pipeline.TablesAreSound | extern/btyacc/output.c:122-153 | every table entry is a shift along the automaton or a reduction by a rule complete in its state |
| Pipeline.ParserIsReady | extern/btyacc/mkpar.c:187-240 | after conflict resolution each state and token has at most one standing action, and the counted conflicts pay for every conflict list |
| Pipeline.StartNeverEnds | extern/btyacc/lr0.c:240-272 | the end token is never shifted: the end of the start rule is in no state |
| SymTab.ComputeHash | extern/btyacc/symtab.c:15-27 | the loop computes the folded hash, below the table size |
| SymTab.SymbolTable.Lookup | extern/btyacc/symtab.c:58-77 | returns the one bucket of a name; a new one goes to the end of its chain and of the symbol list, and nothing else changes |
| SymTab.SymbolTable.OneBucketPerName | extern/btyacc/symtab.c:58-77 | entered buckets are equal exactly when their names are |
| Literal.ReadBytes | extern/btyacc/reader.c:503-552 | the scanning loop with its octal, hexadecimal, named and line-continuation escapes computes the decoding, errors included; the lemmas of Escapes say what each escape decodes to |
| Escapes.HexEscape | extern/btyacc/reader.c:531-544 | backslash, x and hexadecimal digits in either case, with none following, are the one byte whose base-16 numeral the digits are, and an error if that exceeds 255 |
| Escapes.HexEscapeFails | extern/btyacc/reader.c:531-535 | without a digit after it, backslash and x are an error |
| Escapes.OctalEscape | extern/btyacc/reader.c:518-530 | backslash and one to three octal digits, with none following fewer than three, are the byte with that numeral, and an error if it exceeds 255 |
| Escapes.LetterEscape | extern/btyacc/reader.c:545-551 | backslash and one of the letters abfnrtv are the control character 7, 8, 12, 10, 13, 9 or 11 |
| Escapes.EscapedCharacter | extern/btyacc/reader.c:510-552 | backslash and any other character are that character |
| Escapes.LineContinues | extern/btyacc/reader.c:514-517 | backslash and the end of a line are nothing |
| Escapes.HexSharesBucket | extern/btyacc/reader.c:595-603 | a literal of one hexadecimal escape shares the bucket of the literal with that byte written plainly |
| Literal.SpellOut | extern/btyacc/reader.c:562-595 | the second loop computes the canonical quoted name |
| Literal.RoundTrip | extern/btyacc/reader.c:493-603 | decoding a canonical name gives back its bytes, whatever follows it |
| Literal.CanonicalIsExact | extern/btyacc/reader.c:562-595 | two byte strings have the same canonical name exactly when they are equal |
| Literal.GetLiteral | extern/btyacc/reader.c:493-603 | the bucket returned is the one named by the canonical spelling of the decoded bytes, and takes its byte as its value exactly if the literal has one byte and the bucket had no value; no other bucket changes; it fails exactly on malformed literals |
| Literal.LiteralsShareBucket | extern/btyacc/reader.c:595-603 | two literals share a bucket exactly when they decode to the same bytes |
| Reader.Rules.InsertEmptyRule | extern/btyacc/reader.c:1254-1281 | the shifting of items and rules inserts an empty production of a fresh symbol before the open rule and that symbol at the end of what was read of it; precedences move along |
| Reader.InsertOK | extern/btyacc/reader.c:1254-1281 | each zero-terminated stretch of items stays the right-hand side of its rule, and the grammar is one insertion further |
| Reader.Rules.AddSymbol | extern/btyacc/reader.c:1329-1364 | a symbol after an action first inserts the action's empty rule, then joins the open rule |
| Reader.Rules.AddAction | extern/btyacc/reader.c:1366-1385 | of two adjacent actions the first becomes an empty rule |
| Reader.Rules.NextRule | extern/btyacc/reader.c:1225-1252 | the open rule is closed, its last action being its own, and the next one opened, with no precedence yet |
| Reader.Rules.NewSymbol | extern/btyacc/symtab.c:58-77 | a symbol met for the first time gets the next number and may be used in rules as written |
| Reader.ReadingKeepsLanguage | extern/btyacc/reader.c:1254-1281 | the rules as read generate, from every written symbol, what the rules as written do |
| MidRule.SameLanguage | extern/btyacc/reader.c:1254-1281 | inserting an empty rule anywhere in a production leaves every other symbol's language alone, both ways |
| MidRule.AddParses | extern/btyacc/reader.c:1254-1281 | a parse tree before the insertion becomes one after it, with the same yield |
| MidRule.RemoveParses | extern/btyacc/reader.c:1254-1281 | and back |
| PackSymbols.NumberSymbols | extern/btyacc/reader.c:1698-1791 | every symbol gets its own number, tokens first and the goal first of the nonterminals; a token keeps the external number given to it and others get one above 256; external numbers are pairwise distinct exactly when the grammar gives none twice |
| PackSymbols.GiveNumbers | extern/btyacc/reader.c:1753-1770 | given numbers stay, the error token gets 256, each other token the least number above 256 neither given nor taken before |
| PackSymbols.SortNumbers | extern/btyacc/reader.c:1753-1759 | the explicit numbers above 256, sorted by insertion |
| PackSymbols.NextFree | extern/btyacc/reader.c:1764-1770 | the least number from a place on that is not given explicitly |
| PackGrammar.Pack | extern/btyacc/reader.c:1793-1851 | items, left-hand sides and starts; a rule without a precedence of its own gets precedence and associativity of the token that stands in its right-hand side with no token after it, or 0 and none if there is no token |
| PackGrammar.LaidIsWellFormed | extern/btyacc/reader.c:1793-1851 | what is laid down satisfies the encoding all later stages rely on |
| PackGrammar.LaidRhs | extern/btyacc/reader.c:1826-1846 | rule r spells the r-th right-hand side as read, renumbered |
| PackGrammar.PackedPrecedences | extern/btyacc/reader.c:1829-1846 | every rule's precedence is the one given to it, or that of the token with no token after it |
| FrontEnd.NumberingKeepsLanguage | extern/btyacc/reader.c:1698-1851 | numbering the symbols keeps the language of each |
| FrontEnd.PackUp | extern/btyacc/reader.c:1881-1895 | the packed grammar generates from every written symbol what the grammar as written does, whatever numbers are given; symbols and token numbers come from the classes and numbers given; every token has the precedence declared, and every rule its own or the one declared for the token of its right-hand side with no token after it; the external numbers are fit for the tables exactly when none is given twice |
| FrontEnd.CodesAreGiven | extern/btyacc/reader.c:1753-1770 | the token codes of the packed grammar are those given, or fresh, positive and pairwise distinct |
| BitRows.OrRow | extern/btyacc/closure.c:60-100 | or-ing one row of a word matrix into another is the union of the sets they hold |
| BitRows.SetBit | extern/btyacc/defs.h:37-39 | setting a bit by word index and mask adds one element to one row |
| Warshall.TransitiveClosure | extern/btyacc/warshall.c:3-52 | bit (i,j) is set exactly when a nonempty path leads from i to j, for every size and word boundary |
| Warshall.ReflexiveTransitiveClosure | extern/btyacc/warshall.c:54-80 | the reflexive version sets it exactly when any path does |
| Nullable.SetNullable | extern/btyacc/lr0.c:531-577 | terminates and marks exactly the symbols that derive the empty string |
| Closure.SetDerives | extern/btyacc/lr0.c:472-500 | the rules of each nonterminal, ascending |
| Closure.SetEFF | extern/btyacc/closure.c:11-44 | the reflexive left-corner relation on nonterminals |
| Closure.SetFirstDerives | extern/btyacc/closure.c:47-101 | per nonterminal, the rules predicted through left corners |
| Closure.ItemSets.Closure | extern/btyacc/closure.c:104-173 | the merge yields exactly the least item closure of the kernel, strictly ascending, within the number of items |
| Closure.ClosureIsLeast | extern/btyacc/closure.c:104-173 | the closure is contained in every closed set that holds the kernel |
| Closure.ClosureByRules | extern/btyacc/closure.c:104-173 | the closure is the kernel and the first items of the rules its symbols derive |
| LR0.GenerateStates | extern/btyacc/lr0.c:123-146 | terminates with the canonical LR(0) collection: distinct kernels, every goto present and sorted by symbol, every state but 0 entered earlier, state 0 never entered |
| LR0.Builder.GetState | extern/btyacc/lr0.c:150-209 | the chained lookup returns the state of a kernel, new only if there was none |
| LR0.NewItemsets | extern/btyacc/lr0.c:240-272 | the kernels reached over each symbol, in item order |
| LR0.Builder.AppendStates | extern/btyacc/lr0.c:81-107 | the symbols are sorted and each gets its goto state |
| LR0.SaveReductions | extern/btyacc/lr0.c:423-469 | exactly the rules complete in the closure, ascending |
| LR0.NewKernelUses | extern/btyacc/lr0.c:276-310 | every new state uses up an item set, which bounds the construction |
| Paths.PathSpells | extern/btyacc/lr0.c:123-146 | the last symbols of any state path from 0 spell what is before the dot of any item of its last state |
| Paths.LhsGoto | extern/btyacc/lr0.c:123-146 | where a rule can start, its left-hand side has a goto |
| GotoMap.SetGotoMap | extern/btyacc/lalr.c:163-226 | the counting sort numbers every nonterminal transition once, by symbol and then by source |
| GotoMap.MapGoto | extern/btyacc/lalr.c:232-254 | the binary search finds the one number of an existing transition without reading outside its symbol's block |
| Relations.InitializeF | extern/btyacc/lalr.c:258-331 | F holds exactly the tokens read directly, the end token only at the goal's goto; reads lists exactly the nullable transitions; Contexts.LookaheadsFollow shows that neither more nor less belongs there |
| Relations.WalkRule | extern/btyacc/lalr.c:357-378 | walking a rule finds a next state for each symbol |
| Relations.BackRule | extern/btyacc/lalr.c:383-398 | the backward loop records exactly the transitions passed over with only nullable symbols after them |
| Relations.FirstGoto | extern/btyacc/lalr.c:326-328 | number 0 is the transition over the goal out of state 0 |
| Lalr.AddLookbackEdge | extern/btyacc/lalr.c:427-449 | finds the rule among the state's reductions and puts one edge in front of its list |
| Lalr.BuildRelations | extern/btyacc/lalr.c:335-424 | lookback and includes hold exactly their relations |
| Lalr.Transpose | extern/btyacc/lalr.c:453-505 | every edge is turned round, into exactly counted storage |
| Lalr.ComputeLookaheads | extern/btyacc/lalr.c:514-545 | each slot is the union of the rows on its lookback list |
| Lalr.Lalr | extern/btyacc/lalr.c:35-50 | every reduction slot holds exactly what its lookback transitions read through includes and reads |
| Contexts.LookaheadsFollow | extern/btyacc/lalr.c:35-50 | that is: token t is a lookahead of rule r in state q if and only if the goal, followed by the end token, derives a string with the left-hand side of r before t, but for symbols that may be empty, such that what is before it and then the right-hand side lead from state 0 to q |
| Contexts.FollowingIsLookahead | extern/btyacc/lalr.c:335-424 | every token that can come next is found through reads, includes and lookback |
| Contexts.LookaheadIsFollowing | extern/btyacc/lalr.c:320 | and no other; the end token enters at the goal alone |
| Contexts.ReadBegins | extern/btyacc/lalr.c:258-331 | a token read after a transition is what some kernel item of its target begins with |
| Contexts.ItemContext | extern/btyacc/lr0.c:123-146 | every item of every state has its place in a string the goal derives, whose prefix leads to the state |
| Contexts.ContextRead | extern/btyacc/lr0.c:123-146 | and what is before a symbol in such a string can be read from state 0, to a state with the dot before the symbol |
| Contexts.AllSlotsFollow | extern/btyacc/lalr.c:514-545 | every slot of the lookahead table holds exactly the tokens that can come next |
| DigraphPass.Digraph | extern/btyacc/lalr.c:548-570 | every row ends as the union of the initial rows over all reachable vertices, for any relation |
| DigraphPass.Pass.Traverse | extern/btyacc/lalr.c:572-625 | a call finishes the component of its vertex or leaves it on the stack bound to an open call; terminates on the unvisited vertices |
| DigraphPass.Pass.Run | extern/btyacc/lalr.c:548-570 | afterwards INDEX is infinity for every visited vertex, and only vertices without edges are unvisited |
| DigraphPass.RootIsFinal | extern/btyacc/lalr.c:572-625 | the row of a component's root is complete when it is popped |
| DigraphPass.ComponentSharesRow | extern/btyacc/lalr.c:607-624 | members of one component end with equal rows |
| DigraphPass.FlowsIsLeast | extern/btyacc/lalr.c:548-570 | the rows are the least that hold their initial elements and absorb the rows they point to |
| MkPar.GetShifts | extern/btyacc/mkpar.c:47-78 | exactly the token shifts of a state, in order |
| MkPar.AddReduce | extern/btyacc/mkpar.c:102-137 | one splice into the ordered list; nothing else moves |
| MkPar.AddReductions | extern/btyacc/mkpar.c:80-100 | exactly the reductions on their lookahead tokens join the list |
| MkPar.ResolveRow | extern/btyacc/mkpar.c:187-240 | the loop gives every action the verdict of the closed form; its counters are the numbers of the actions that are shift/reduce and reduce/reduce conflicts |
| MkPar.ShiftAgainstReduction | extern/btyacc/mkpar.c:206-230 | of a shift and a reduction alone on a token, both with a precedence, the lower one is removed; at equal precedence the shift if the token associates to the left, the reduction if to the right, and else both; without precedences, and on the end token in the final state, both are in conflict, counted as shift/reduce |
| MkPar.ReductionAgainstReduction | extern/btyacc/mkpar.c:206-235 | two reductions alone on a token are in conflict, counted as reduce/reduce, and on the end token in the final state as shift/reduce |
| MkPar.ShiftRemoved | extern/btyacc/mkpar.c:211-225 | a shift is removed by any reduction of higher precedence, or of equal one unless the token associates to the right, whatever else is on the token |
| MkPar.ReductionRemoved | extern/btyacc/mkpar.c:216-222 | a reduction with a precedence is removed by a shift that none on the token defeats |
| Operators.OperatorsNest | extern/btyacc/mkpar.c:187-240 | in the tree of any accepted input a phrase of one binary rule is not the last operand of another whose rule wins against its operator, nor the first operand of one whose operator wins against its rule and all complete beside it |
| Operators.DeclaredNest | extern/btyacc/reader.c:1838-1846 | the same from the precedences and associativities declared for the two operators: %left nests to the left, %right to the right, and the tighter operator inside |
| Operators.NoShift | extern/btyacc/skeleton.c:243-404 | where the reduction wins the parser is offered no shift of the token |
| Operators.NoReduce | extern/btyacc/skeleton.c:243-404 | where the shift wins it is not offered the reduction, nor as a default |
| Operators.OperatorFollows | extern/btyacc/lalr.c:335-424 | where one binary rule is complete the operator of another on the same nonterminal is a lookahead |
| MkPar.AtMostOneStands | extern/btyacc/mkpar.c:187-240 | no token keeps two standing actions |
| MkPar.StandingBesideConflict | extern/btyacc/mkpar.c:187-240 | a standing action coexists with a conflict on its token exactly when the last reduction wins by precedence after one without precedence |
| LateWinners.LateWinnerExists | extern/btyacc/mkpar.c:187-240 | an ordered row with such a winner |
| LosingGrammar.GenerateLosing | extern/btyacc/mkpar.c:187-240 | a grammar whose generated parser has a state with such a winner, which no input makes it take |
| LateWinners.NoDefaultRule | extern/btyacc/mkpar.c:263-287 | a state with such a winner has no default reduction |
| LateWinners.WinnerNeverTaken | extern/btyacc/skeleton.c:273-372 | in that state on that token the parser always finds a conflict, whose list leaves the winner out, so no trial, backtrack or replay takes it |
| LateWinners.TakenExactly | extern/btyacc/skeleton.c:243-404 | a standing action is what the parser does in its state and on its token, as the default or as looked up, exactly if it is not such a winner |
| MkPar.RunBudget | extern/btyacc/mkpar.c:187-240 | a token's conflict list, with terminator and mark, fits in four places per counted conflict |
| MkPar.SoleReduction | extern/btyacc/mkpar.c:263-287 | the default reduction is the one rule all unsuppressed actions reduce by, some of them on a token other than error, and 0 exactly when there is none |
| MkPar.FindFinalState | extern/btyacc/mkpar.c:139-153 | the state entered over the goal from state 0 |
| MkPar.MakeParser | extern/btyacc/mkpar.c:23-36 | every state's actions resolved, with defaults and conflict totals |
| ConflictTable.Conflicts.FindConflictBase | extern/btyacc/output.c:155-166 | the first earlier place where the open list already stands |
| ConflictTable.Conflicts.Close | extern/btyacc/output.c:182-197 | a closed list stands in the table, kept or found earlier; the closed part never changes |
| ConflictTable.OverlapIsOneCell | extern/btyacc/output.c:155-166 | a list that recurs earlier can overlap its copy in one cell only |
| ConflictTable.DecodeStored | extern/btyacc/skeleton.c:318-326 | a stored list decodes to its values wherever it stands |
| TokenActions.StateActions | extern/btyacc/output.c:168-240 | the three rows of a state: standing shifts, standing reductions but the default, and places of conflict lists, within the table's budget |
| ActionRows.Tallies | extern/btyacc/output.c:178-240 | the counters equal the numbers of slots in use |
| ActionRows.FillVector | extern/btyacc/output.c:228-277 | arrays of exactly the tallied size are filled up with keys and entries |
| ActionRows.AllStates | extern/btyacc/output.c:168-277 | the vectors of every state, and the conflict table within 4*(SRtotal+RRtotal) |
| GotoColumns.DefaultGoto | extern/btyacc/output.c:313-344 | the first of the most frequent targets |
| GotoColumns.SaveColumn | extern/btyacc/output.c:348-386 | the gotos that are not the default, by source, and the span of the sources |
| Pack.SortActions | extern/btyacc/output.c:388-420 | the nonempty vectors, wider first, then fuller, ties by number |
| Pack.Packer.MatchingVector | extern/btyacc/output.c:489-524 | finds an earlier identical row if there is one |
| Pack.Packer.PackVector | extern/btyacc/output.c:528-600 | terminates with the least nonzero base that fits free cells and was not used; starting from lowzero skips nothing |
| Pack.Packer.PackTable | extern/btyacc/output.c:423-468 | every nonempty vector gets its base, empty ones keep 0, and equal rows share |
| Pack.LookupExact | extern/btyacc/skeleton.c:377-403 | the parser's test succeeds exactly for the keys of a packed vector, and finds their entries |
| Output.GotoActions | extern/btyacc/output.c:279-311 | a default and a column per nonterminal |
| Output.RuleData | extern/btyacc/output.c:43-90 | left-hand sides by external number, and lengths |
| Output.WriteTables | extern/btyacc/output.c:122-153 | the tables as printed read back as exactly the resolved actions and gotos |
| Output.GotoReadsBack | extern/btyacc/skeleton.c:651-656 | every goto is recovered, through its column or as the default |
| Output.ConflictsDecode | extern/btyacc/skeleton.c:318-326 | in a state without a default reduction the conflict table gives exactly the suppressed alternatives, in order |
| Output.IdenticalRowsShare | extern/btyacc/output.c:489-524 | identical rows get one base |
| MachineStacks.ShiftStack | extern/btyacc/skeleton.c:377-390 | a shift extends the state path and consumes one token |
| MachineStacks.ReduceStack | extern/btyacc/skeleton.c:600-668 | a reduction pops exactly its rule's right-hand side, finds its goto, and keeps what was consumed |
| Trials.StepOK | extern/btyacc/skeleton.c:243-404 | one step keeps sound stacks, choices that led where the parse is, and a path it is coming to |
| Trials.PathArrived | extern/btyacc/skeleton.c:279-293 | during replay a conflict is the very one the path recorded |
| Trials.ReplayOK | extern/btyacc/skeleton.c:279-372 | the state-mismatch abort is never taken |
| Trials.BacktrackOK | extern/btyacc/skeleton.c:410-461 | backtracking resumes the innermost save that has an alternative left, soundly |
| Trials.ValidOK | extern/btyacc/skeleton.c:670-704 | a successful trial turns its saves into a path the restarted parse will follow |
| LexemeQueue.ReadMeans | extern/btyacc/skeleton.c:754-777 | reading through the queue delivers the token at the present place |
| LexemeQueue.RewoundMeans | extern/btyacc/skeleton.c:330-352 | resetting or rewinding the queue moves nothing |
| LexemeQueue.BacktrackMeans | extern/btyacc/skeleton.c:433-461 | backtracking puts the queue back at the place of the save |
| LexemeQueue.StepMeans | extern/btyacc/skeleton.c:243-404 | a step with the queue is a step with random access to the input |
| Skeleton.RunGood | extern/btyacc/skeleton.c:209-668 | the invariant holds after any number of rounds, for any input and any calls of YYVALID |
| Skeleton.Soundness | extern/btyacc/skeleton.c:553-668 | an accepting run has a parse tree of the goal over exactly the tokens consumed, with nothing pending |
| Skeleton.NeverLost | extern/btyacc/skeleton.c:243-404 | no run leaves its tables, stacks or queue, and no replay is aborted |
| Skeleton.RunOnCourse | extern/btyacc/skeleton.c:279-372 | replay comes to each recorded configuration without another choice; during a trial each choice led to the next |
| Skeleton.SameTokens | extern/btyacc/skeleton.c:754-777 | at any point of any run the next token delivered is the one at the present place |
| Skeleton.BacktrackRestores | extern/btyacc/skeleton.c:433-452 | the next alternative is tried from the saved stack at the saved place |
| Replay.ReplayEnds | extern/btyacc/skeleton.c:670-704 | the replay of a successful trial comes, with all its choices made and nothing saved on the way, to the spot where the trial succeeded, and performs the same action there |
| Commits.RoundMoves | extern/btyacc/skeleton.c:243-461 | what a round does that follows no path: an error with nothing left to try fails; a trial that succeeds, by YYVALID or at the end of the input, leaves its choices as the path; any other action is performed in its trial |
| Commits.ValidCommits | extern/btyacc/skeleton.c:670-704 | a reduction of a trial that calls YYVALID leaves nothing saved and a path that holds the trial's choices, and the parse at the spot saved outermost |
| Commits.ValidElsewhere | extern/btyacc/skeleton.c:123 | outside a trial, in a replay and with a shift a call of YYVALID changes nothing |
| Commits.CommitReplays | extern/btyacc/skeleton.c:270-372 | after it the choices are made again with nothing saved, up to the reduction that called it |
| Commits.ErrorFails | extern/btyacc/skeleton.c:410-461 | an error with nothing saved ends the parse |
| Commits.CommittedFails | extern/btyacc/skeleton.c:670-704 | a parse so committed, with no later call of YYVALID, fails exactly if what comes after that reduction is refuted: the alternatives left before it are not tried |
| Commits.FirstWins | extern/btyacc/skeleton.c:415-461 | when the first trial succeeds all alternatives passed over at its conflicts are refuted |
| Invariants.RunKeeps | extern/btyacc/skeleton.c:209-668 | what every action offered keeps holds of the present, the saved and the replayed spots of every run, and where it accepts |
| Search.SearchOn | extern/btyacc/skeleton.c:415-461 | from any spot outside a trial on, without YYVALID, what is passed over is refuted, unless the run comes to accept |
| Replay.AcceptedTrialAccepts | extern/btyacc/skeleton.c:735-736 | a trial that reaches the end of the input is followed by a replay that accepts, with the trial's tree |
| Search.FailedIsRefuted | extern/btyacc/skeleton.c:415-461 | a run without YYVALID that fails has tried every sequence of alternatives to its error |
| Search.RefutedFails | extern/btyacc/skeleton.c:415-461 | and if all of them end in errors it fails |
| Search.FailsExactly | extern/btyacc/skeleton.c:243-461 | both directions together |
| FollowTokens.FirstRead | extern/btyacc/lalr.c:258-331 | the first token of a phrase is read where the phrase can start, directly or through nullable nonterminals |
| FollowTokens.ChildFollowed | extern/btyacc/lalr.c:335-424 | the token after a phrase inside a derivation follows the phrase's transition, through reads or includes |
| FollowTokens.PhraseReduces | extern/btyacc/lalr.c:427-449 | a phrase read to its end can be reduced on every token that follows it |
| Completeness.RowOffers | extern/btyacc/output.c:182-240 | in a row from which precedence removed nothing every action is looked up as default, shift, reduction or alternative of a conflict |
| Completeness.FullTablesObey | extern/btyacc/output.c:122-153 | then the tables offer every transition over a token and every reduction on its lookaheads |
| Completeness.SentenceFinishes | extern/btyacc/skeleton.c:243-404 | some choice of alternatives reads any sentence to the end |
| Completeness.SentenceNeverFails | extern/btyacc/skeleton.c:415-461 | without YYVALID no run on a sentence fails |
| Completeness.EndedRunDecides | extern/btyacc/skeleton.c:243-461 | a run without YYVALID that ends has accepted exactly when the tokens before an end token are a sentence |
| Completeness.SentenceAccepted | extern/btyacc/skeleton.c:243-404 | without conflicts every sentence is accepted |
| Completeness.Decides | extern/btyacc/skeleton.c:209-668 | without conflicts an input is accepted exactly when the tokens before an end token are a sentence |
| Reductions.EndlessCircles | extern/btyacc/skeleton.c:553-668 | reductions that go on for ever come to two states on top of the stack that come again without anything below them being uncovered |
| Reductions.CircleIsEndless | extern/btyacc/skeleton.c:553-668 | and where two states come again so, they do for ever, whatever is below |
| Reductions.ReductionsEndExactly | extern/btyacc/skeleton.c:553-668 | from every stack of the automaton and before every token, reductions come to an end exactly if no transition circles, for the alternatives tried first as for all of them |
| Reductions.SelfRuleCircles | extern/btyacc/skeleton.c:270-372 | a rule that rewrites a symbol to itself, tried first, circles |
| Reductions.EmptyRuleCircles | extern/btyacc/skeleton.c:553-668 | an empty rule reduced again in the state its own symbol enters, as where precedence removed a shift, makes the stack grow for ever |
| Endings.CaughtNeverEnds | extern/btyacc/skeleton.c:243-404 | a run that comes to states that circle never ends, unless YYVALID cuts its trials short |
| Endings.EndsExactly | extern/btyacc/skeleton.c:243-404 | without conflicts a run on an input with an end token ends exactly if it never comes to states that circle |
| Endings.DecidesAndEnds | extern/btyacc/skeleton.c:209-668 | where no transition circles, a parser without conflicts comes to an end on every input with an end token, having accepted exactly the sentences |
| Endings.OnwardsCircles | extern/btyacc/skeleton.c:243-404 | any endless sequence of alternatives on an input with an end token comes to rest at one place and circles there |
| Halting.Resolves | extern/btyacc/skeleton.c:415-461 | from a spot where sequences of alternatives are bounded, trying them in turn refutes them all or succeeds |
| Halting.SearchEnds | extern/btyacc/skeleton.c:243-461 | where no alternatives circle, a search without YYVALID ends on every input with an end token, with any conflicts |
| Halting.SearchDecides | extern/btyacc/skeleton.c:209-668 | and where precedence removed nothing it has then accepted exactly the sentences |
| LeftRecursion.NullCircleHides | extern/btyacc/lr0.c:123-146 | a circle of states entered by symbols that may be empty shows a symbol that derives itself behind such symbols |
| LeftRecursion.CircleInGrammar | extern/btyacc/skeleton.c:553-668 | states that circle, whatever alternatives are chosen, show a symbol that derives itself alone or behind symbols that may be empty |
| LeftRecursion.NothingCircles | extern/btyacc/skeleton.c:553-668 | in a grammar without such symbols no transition circles |
| LoopingGrammar.LoopIsConflictFree | extern/btyacc/mkpar.c:187-240 | conflict resolution finds no conflict in the grammar of A: A and A: 'x', though its final state reduces on the end token |
| LoopingGrammar.NeverEnds | extern/btyacc/skeleton.c:614-646 | its parser runs for ever on any input that starts with two of its tokens |
| LoopingGrammar.GenerateLoop | extern/btyacc/skeleton.c:614-646 | the generator, given that grammar, makes such a parser: no conflict, and no end on those inputs |
| Skeleton.Parser.Parse | extern/btyacc/skeleton.c:192-704 | the parser object runs as the step function says, so that what is proved of all runs holds of it, and what it accepts is parsed |
| Skeleton.Parser.OnConflict | extern/btyacc/skeleton.c:270-372 | follows the path, or saves the configuration and tries the first alternative |
| Skeleton.Parser.OnError | extern/btyacc/skeleton.c:415-461 | the loop over the saves is the backtracking function |
| Skeleton.Parser.TurnRound | extern/btyacc/skeleton.c:670-704 | the loop that reverses the list of saves |
| Skeleton.Parser.ReduceBy | extern/btyacc/skeleton.c:553-704 | a call of YYVALID in a trial turns the saves round (Commits says what that commits to); else pops, goto lookup with default, and the look ahead at the goal |
| Skeleton.Parser.NextToken | extern/btyacc/skeleton.c:754-777 | the next token, from the queue or through it during a trial |
| BcdMult.Multiply | examples/udr/Functions.cpp:254-264 | the nested digit loops leave the exact product in the buffer |
| BcdMult.AddProduct | examples/udr/Functions.cpp:261-263 | one digit product and carry; no byte exceeds 99 |
| BcdMult.CutOff | examples/udr/Functions.cpp:266-275 | the digits kept are the product truncated |
| BcdMult.Mult | examples/udr/Functions.cpp:250-276 | sign, exponent and digits of the product, truncated to as many digits as the factors have, exact when offset equals that number |

## Left out

- Error recovery of the generated parser (errflag, discarding tokens, restoring the farthest error): a syntax error outside any trial ends a run with status Failed.
- User actions: modelled as parse trees for values and an arbitrary decision, per round, whether an action calls YYVALID; YYVALID_NESTED, YYERROR, YYABORT and positions are left out.
- Files, options, signals, temporary files, text emission, debugging output and tags; the arrays that would be printed are the output.
- Memory exhaustion, freeing, the MAXTABLE and MAXSHORT exits, and overflow of C integers: integers are unbounded, except that byte arithmetic is written out in BcdMult and the hash is reduced as in the source.
- Argument rules, `%ifdef`, `%include`, `%prec` marks and the scanning of names and declarations: rules reach the model as calls that add symbols and actions.
- unused_rules, total_conflicts, state_count reuse and other statistics.
- Table rows are freed and reused by the source; here they live on.
- BitRows.OrRow: a 32-bit word is modelled as the set of its bit positions, so the representation of a word as an integer is not captured; word indices, masks and boundaries are.
- LR0.Builder.GetState: linked states and hash chains are sequences of state numbers, so pointer aliasing is not captured.
- SymTab.SymbolTable.Lookup: chains and the symbol list are sequences of buckets instead of linked fields; character codes are unsigned.
- MkPar.AddReduce: action lists are sequences, so the splice is stated on contents and order, not on shared nodes.
- Skeleton.Parser.Parse: saved configurations, stacks and the queue are sequences that are copied where the source copies arrays; growing and shifting their storage is not captured, and the value stack has no entry for the bottom state.
- BcdMult.Mult: signs are truth values; the last byte of the buffer, which no step touches, is left out.
- Literal.GetLiteral: printable characters are those of the C locale; the source text is one sequence in which lines end with a newline.
- Output.WriteTables: asks for distinct external token numbers, which the source does not check; a vector with one key twice keeps only its last entry, so the rows could not read back.
- Pipeline.ReadGenerateParse: asks for grammars that give no number twice, for the same reason.
- PackSymbols.NumberSymbols: the rest of the pipeline asks for distinct external numbers, which the source does not check; the exact condition is stated.
- Pipeline.Generate: asks for distinct external token numbers, as Output.WriteTables does.
- Completeness.EndedRunDecides: does not say that the search ends, because it need not: LoopingGrammar gives a grammar without conflicts, Reductions.SelfRuleCircles and Reductions.EmptyRuleCircles two ways with conflicts or with shifts that precedence removed; Endings and Halting say when it does. Where precedence removed actions or YYVALID cuts the search short, sentences can be refused, so nothing is claimed there but soundness and, without YYVALID, the end of the search.
- Halting.SearchEnds: says when a search with conflicts ends, not that it never ends otherwise: an input can be accepted before the alternatives that circle are tried. Without conflicts the condition is exact (Endings.EndsExactly).
- LeftRecursion.NothingCircles: a symbol that derives itself need not lead to states that circle, when no state reduces by its rules.
