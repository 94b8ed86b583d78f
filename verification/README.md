# Lemon's LALR(1) generator and Tora's compiler and virtual machine

Two parts of the Tora repository, modelled and verified in Dafny.

**Lemon** (`tools/lemon/lemon.c`) turns a grammar into the arrays of a parser, and the driver
(`tora/lempar.c`) runs a shift/reduce machine over those arrays.  The model follows the whole chain:
FIRST sets by fixpoint, the canonical LR(0) collection with its lookaheads and propagation links, the
least propagation, conflict resolution, default reduces, the numbering of the states, the rows of all
states overlaid in one array, the arrays as they are written, and the driver's stack machine.  Which action is
left on each lookahead, which becomes the default and how states and rows are ordered is also said without
the comparison functions of the source, by precedences, associativity, rule numbers and counts.  At the end
stand statements about the generated parser: whatever it accepts is a sentence; for LALR(1) grammars it
accepts every sentence; and if moreover every nonterminal derives a terminal string, it decides the
language: every input comes to an end, those that are not sentences with a syntax error, and no token is
shifted with which no sentence goes on.  Two conditions are needed for the arrays to say what the action
lists and the rules say, one on the overlaid array and one on the lengths of right-hand sides.  Both are
proved to be exact, and for each there is a grammar that Lemon accepts without complaint and that fails
it.

**Tora** (`tora/compiler.cc`, `vm.inc`, `tora/pad_list.cc`, `tora/frame.cc`) compiles a syntax tree to
operations whose operands are filled in later, and runs them on a stack of values and a stack of frames
with linked pads.  For a structured part of the language the emitted code is the intended one exactly for
the programs in which `last` gets its own loop's label, and then the machine reaches the end of the code
if and only if the program ends, with the same values in its variables.

Each Dafny module follows one component.  Symbols are numbers: terminals below `nterminal` with the end
marker as 0, then the nonterminals, then the pseudo symbol `{default}`.  Code that changes state in the
source is a class or a method here, proved against functions and predicates over values; the theorems
are lemmas about those.

| files | component |
|---|---|
| `Grammar`, `FirstSets`, `Automaton`, `FollowSets`, `Lookaheads`, `CanonicalLr1` | grammars, FIRST sets, the automaton, the follow sets and what they are |
| `MergeSort`, `Sorting`, `Conflicts`, `Precedence`, `Actions`, `Compress`, `Lalr` | `msort` on linked nodes, `qsort`, the action lists, which action is left, when there are conflicts |
| `Overlay`, `ActTab`, `Tables`, `Report` | the packed table, the written arrays, when they are right |
| `Driver`, `Trees`, `Complete`, `Pipeline` | the parser, its soundness and completeness, the generator as a whole |
| `Viable`, `Decides`, `Barren` | what may come next behind a stack, why the parser always comes to an end, and a grammar for which it reads too much |
| `Calculator` | a grammar with precedences through the whole generator |
| `Chain`, `Failures` | all that the generator makes of grammars with one rule, and two such grammars with wrong parsers |
| `ToraMachine`, `ToraVm`, `ToraSyntax` | operations and their effect, the VM object, the language and its meaning |
| `ToraCompiler`, `ToraEmit` | the emitted code as a function, and the compiler object that emits and patches it |
| `ToraCorrect`, `ToraStatements`, `ToraConverse`, `ToraProgram` | expressions, statements and whole programs run as they mean, and no further |
| `ToraScopes` | which programs the compiler accepts |
| `Basics` | an option type, and sequences without repetition |

## Findings

Places where the code does not do what it is for; each is a lemma or method below, with the exact
condition for the code to be right.

- The second search of `acttab_insert` can end without `break`.  The row is then put at an offset that
  may be in use, and both rows show each other's entries; seventeen rows of one entry do it
  (`LemonActTab.InsertSeventeen`).  They are the rows of the grammar with the one rule `s ::= T^17 Q`, with
  T and Q as terminals 1 and 4 of five: for whatever tables are generated from it, Lemon reports no
  conflict, and the parser in the state after `T^16` reads Q as the state after `T^17` does
  (`LemonFailures.CollidingFails`).  It then reduces eighteen symbols with seventeen on the stack
  (`LemonFailures.CollidingRun`).  The arrays are right if and only if, in the one layout that the action
  lists have, no state meets at its offset a foreign terminal action that differs from its default
  (`LemonReport.RefinesIffHarmless`).
- `msort` has 30 bins and loses nodes for lists of 2^30 and more (`LemonMergeSort.MSort`, an if and only if).
- `yyRuleInfo[].nrhs` is an `unsigned char`, so a right-hand side is popped modulo 256.  If no state is
  disturbed, the arrays drive the parser if and only if every right-hand side that can be reduced is shorter
  than 256 symbols (`LemonPipeline.GeneratedIsSound`).  After the only sentence of `s ::= T^256` the driver
  reduces, pops nothing, and looks for a goto that is not there (`LemonFailures.LongFails`, `LongRun`).
- The compiler keeps one list of waiting `last` operands, and the first loop that ends fills in all of
  them.  A `last` with a loop behind it in the same body jumps behind the wrong loop
  (`ToraProgram.HastyFails`: the program ends at once, the machine runs out of frames).  The emitted code
  is the intended one if and only if no loop is compiled while a `last` waits
  (`ToraProgram.CompiledAsIntended`).

## Model

| member | source | states |
|---|---|---|
| LemonFirstSets.Symbols.FindLambdas | tools/lemon/lemon.c:680-694 | afterwards the marks are sound and closed under the rules: every marked symbol derives the empty string, and no rule can mark another one |
| LemonFirstSets.Symbols.AddFirstOfRule | tools/lemon/lemon.c:697-722 | one walk over a right-hand side keeps the sets sound, reports progress exactly when a set grew, and without progress the rule's FIRST is already in the set of its left-hand side |
| LemonFirstSets.Symbols.FindFirstSets | tools/lemon/lemon.c:668-724 | terminates with the mark of a symbol set exactly when it derives the empty string, and in the set of a nonterminal exactly the terminals that begin something derived from it |
| LemonFirstSets.FixpointIsExact | tools/lemon/lemon.c:668-724 | any sound fixpoint of the two nests of loops is exact in that sense |
| LemonFirstSets.FirstOfExact | tools/lemon/lemon.c:1250-1266 | walking the tail of an item with exact marks and sets finds exactly the terminals that can begin a form derived from the tail |
| LemonAutomaton.Closure | tools/lemon/lemon.c:1233-1275 | the list without duplicates is the least closed set of items around the basis; each follow set is the base plus what the tails of the generating items begin with, and the links are those of vanishing tails |
| LemonAutomaton.Generator.GetState | tools/lemon/lemon.c:790-831 | returns the one state with this kernel; states there before are not changed, new ones have all their shifts; terminates because every new state has a kernel not seen before |
| LemonAutomaton.Generator.BuildShifts | tools/lemon/lemon.c:850-898 | every symbol behind a mark gets its shift, and the states below are left alone |
| LemonAutomaton.Generator.FindStates | tools/lemon/lemon.c:731-788 | terminates with the canonical LR(0) collection, its initial follow sets and all propagation links; every state but the first has a shift from a state with a smaller number |
| LemonAutomaton.AutomatonIsCanonical | tools/lemon/lemon.c:731-898 | kernels are distinct and are exactly those that some path of symbols leads to; each list is the closure of its kernel; every shift leads to the advanced kernel and never to state 0 |
| LemonAutomaton.ShiftKeepsStates | tools/lemon/lemon.c:850-898 | recording one more shift keeps the invariant of the table of states |
| LemonLookaheads.FindLinks | tools/lemon/lemon.c:903-933 | all configurations, with forward links exactly for the recorded back links and the follow sets as the closure left them |
| LemonFollowSets.Propagation.PassOn | tools/lemon/lemon.c:950-966 | one turn for a configuration that is due: afterwards it has passed on all it has, and nothing is added that the least solution does not need |
| LemonFollowSets.Propagation.FindFollowSets | tools/lemon/lemon.c:938-968 | terminates with the least family above the initial sets that is closed under all links, although unchanged configurations are skipped |
| LemonLookaheads.FollowSetsAreMergedLr1 | tools/lemon/lemon.c:903-968 | a terminal is in the follow set of an item of a state exactly when it is an LR(1) lookahead of the item after some path to the state, by a definition that mentions the grammar only |
| LemonCanonicalLr1.LookaheadsAreCanonical | tools/lemon/lemon.c:1233-1275 | if every nonterminal derives a terminal string these are the lookaheads of the textbook's canonical LR(1) collection, although the closure adds FIRST of a tail without asking for a lookahead behind it |
| LemonLookaheads.OnlyEndFollowsStart | tools/lemon/lemon.c:731-788 | an LR(1) lookahead of an item of a start rule is the end marker |
| LemonMergeSort.Merge | tools/lemon/lemon.c:1566-1606 | merging two sorted lists in place gives one sorted list of exactly their nodes, those of the first list before equal ones of the second; no other node's link changes |
| LemonMergeSort.Insert | tools/lemon/lemon.c:1628-1636 | one node more is carried through the bins like a bit through a binary counter; a run is lost exactly when the last bin is overwritten |
| LemonMergeSort.MSort | tools/lemon/lemon.c:1618-1642 | the result is sorted and has no node twice; it has all nodes if and only if there were fewer than 2^30 |
| LemonPrecedence.FindRulePrecedences | tools/lemon/lemon.c:640-661 | a rule without a precedence symbol of its own gets the first symbol of its right-hand side that has a precedence, and nothing else changes |
| LemonConflicts.OneSurvives | tools/lemon/lemon.c:1057-1118 | of two competing actions exactly one stays live, and that one is unchanged |
| LemonConflicts.ResolveConflicts | tools/lemon/lemon.c:1019-1026 | of every group of actions on one lookahead, of any size, exactly the champion is live: the one left when each in turn meets the winner so far; the number returned counts the meetings that precedence and associativity cannot decide |
| LemonPrecedence.ChampionIsBest | tools/lemon/lemon.c:1057-1118 | in a sorted group of any size the champion is the first action if that has no precedence, and otherwise the one over all others with precedence: higher precedence first; on equal precedence the reduce for a left-associative operator and the shift for any other; of two rules the one with the smaller number |
| LemonActions.DecidedIsChosen | tools/lemon/lemon.c:1014-1027 | the actions left in a state are exactly those chosen in this way among the candidates on their lookahead, said without the order of the list, the comparison function and resolve_conflict |
| LemonActions.StateActions | tools/lemon/lemon.c:974-1043 | the list, in the order of lookaheads, of all shifts, reduces and the accept; on each lookahead exactly the action chosen by precedence, associativity and rule number is left, and nothing is lost exactly when no two candidates share a lookahead |
| LemonActions.DecidedIsResolved | tools/lemon/lemon.c:1014-1027 | deciding every group leaves at most one live action for a lookahead, always a candidate, and one for every lookahead that had any |
| LemonLalr.NoConflictsIsLalr1 | tools/lemon/lemon.c:974-1043 | no two candidates of any state compete if and only if the grammar is LALR(1), said of the grammar's LR(0) collection and merged LR(1) lookaheads alone |
| LemonCompress.CompressState | tools/lemon/lemon.c:4051-4105 | the most frequent reduce, never one of a start rule, becomes the default, and of equally frequent ones that which comes first in the list; all other live actions stay, and each lookahead still has one |
| LemonCompress.DefaultByLookaheads | tools/lemon/lemon.c:4065-4085 | said of lookaheads: the default is the rule reduced on most of them, and among equals the one reduced on the least |
| LemonTables.ResortStates | tools/lemon/lemon.c:4135-4164 | a renumbering, with its inverse, that keeps state 0; from there on states with fewer nonterminals to go on come later, among equals those with fewer terminals, and then those that were found first |
| LemonOverlay.SameOffsetSameRow | tools/lemon/lemon.c:529-622 | in an exactly packed table two rows have one offset if and only if they have the same entries |
| LemonOverlay.InsertOutcome | tools/lemon/lemon.c:529-622 | after an insertion all rows are exact if and only if a search ended by `break` or the offset fallen back to was unused |
| LemonOverlay.UsedOffsetIsSpoiled | tools/lemon/lemon.c:585-607 | a row written at an offset in use is not exact |
| LemonOverlay.ExhaustedIsFree | tools/lemon/lemon.c:586-607 | the second search is exhausted only for rows whose smallest lookahead is at least 2, and then the slots written are inside the table and free |
| LemonActTab.ActTab.Action | tools/lemon/lemon.c:496-520 | the entry joins the transaction, whose smallest and largest lookahead stay recorded; the table is untouched |
| LemonActTab.ActTab.FindDuplicate | tools/lemon/lemon.c:559-581 | the highest slot at which the whole transaction and nothing else is already there, or -1 |
| LemonActTab.ActTab.FindHole | tools/lemon/lemon.c:591-607 | the lowest slot at which the transaction fits at an unused offset, or the bound |
| LemonActTab.ActTab.Insert | tools/lemon/lemon.c:529-622 | the table, the offset and whether rows stay exact are those of the function Insertion of the old table and the collected row |
| LemonActTab.InsertionSane | tools/lemon/lemon.c:529-622 | every insertion keeps all rows readable and every occupied slot owned by a row; exactness of all rows is kept exactly while every insertion meets the condition of InsertOutcome |
| LemonActTab.HeldReads | tools/lemon/lemon.c:529-622 | in any table built by insertions, reading through an offset shows exactly the entries of the rows with that offset |
| LemonActTab.LowRowsKeep | tools/lemon/lemon.c:529-622 | rows with an entry on lookahead 0 or 1 are always packed exactly |
| LemonActTab.LowRowsApart | tools/lemon/lemon.c:529-622 | if that holds of the rows below some lookahead, those that share an offset are equal, whatever becomes of the rows above it |
| LemonActTab.InsertSeventeen | tools/lemon/lemon.c:529-622 | seventeen one-entry rows inserted into the empty table leave it with rows that are not exact |
| LemonReport.PlaceRow | tools/lemon/lemon.c:3706-3732 | the entries of one row are collected and inserted; the new table is the function Insertion of the old one |
| LemonReport.PlaceRows | tools/lemon/lemon.c:3706-3736 | the table is the replay of all non-empty rows in order, and the offsets and least offsets are those of the replay |
| LemonReport.OrderUnique | tools/lemon/lemon.c:3536-3547 | axset_compare admits only one order of the rows, so the layout is a function of the lists |
| LemonReport.LargerFirst | tools/lemon/lemon.c:3683-3705 | larger rows are placed first; of equally large ones that of the later state, and of the two rows of a state that of the nonterminals |
| LemonReport.WrittenRefines | tools/lemon/lemon.c:3683-3835 | the arrays look up, for every state and symbol, the live action of its list or else the default, if and only if no state sees a foreign terminal action that is not its default |
| LemonReport.LayoutUnique | tools/lemon/lemon.c:3683-3736 | the action lists and their numbering have one layout: order of the rows, offsets and least offsets |
| LemonReport.ReportUnique | tools/lemon/lemon.c:3683-3835 | and one set of arrays that can be written from them |
| LemonReport.RefinesIffHarmless | tools/lemon/lemon.c:3683-3835 | the arrays are right if and only if a condition on the lists alone holds: in their layout no state meets a foreign terminal action at its offset that is not its default |
| LemonReport.KeptIsUndisturbed | tools/lemon/lemon.c:3683-3835 | no state does if every insertion kept the rows exact |
| LemonReport.LowTerminalRowsUndisturbed | tools/lemon/lemon.c:3683-3835 | nor if every state with terminal actions has one on terminal 0 or 1 |
| LemonReport.ReportTable | tools/lemon/lemon.c:3683-3835 | the arrays are written from that table and those offsets, with the two statements above about the result |
| LemonReport.StrayEntry | tora/lempar.c:383-438 | a lookup that hits although the state has no action on the terminal hits an action of a state with the same offset |
| LemonDriver.HandleOnTop | tora/lempar.c:555-634 | under an item of the top state the symbols before its mark are on top of the stack, and the state where the item began is below them |
| LemonDriver.ReduceThere | tora/lempar.c:448-473 | when a reduce is due its right-hand side is on top, and the arrays hold the goto of the state below, as yy_find_reduce_action asserts |
| LemonDriver.AlwaysSafe | tora/lempar.c:709-858 | on every stack the driver can have, everything a turn looks up or asserts is there |
| LemonDriver.Parser.Shift | tora/lempar.c:496-537 | pushes the state and symbol, or empties the stack and counts an error when it is full |
| LemonDriver.Parser.Reduce | tora/lempar.c:555-634 | pops the right-hand side and pushes the goto, accepts, or overflows |
| LemonDriver.Parser.Parse | tora/lempar.c:709-858 | one token: the stack stays a path of shifts from state 0, and the result is that of the turns as a function of the old stack |
| LemonDriver.Parser.Eval | tora/vm.cc:150-168 | the loop over all tokens: if it finishes without failure, the tokens are derived from the start symbol; it finishes if every token comes to an end, which for large limits LemonDecides.DecidesLanguage shows |
| LemonDriver.AcceptedIsSentence | tora/lempar.c:674-688 | acceptance means that the tokens before the end marker are derived from the start symbol |
| LemonTrees.DerivationHasTrees | tora/lempar.c:555-634 | every derivation of terminals is the yield of parse trees, the form in which the driver meets it |
| LemonComplete.ForestMoves | tora/lempar.c:709-858 | reading the leaves of a forest moves the stack from any state that awaits the forest to the one behind it |
| LemonComplete.SentenceIsAccepted | tora/lempar.c:709-858 | if the arrays hold every action asked for, every sentence is accepted with any larger stack and number of turns |
| LemonComplete.AcceptsLanguage | tora/lempar.c:709-858 | such a parser accepts exactly the sentences of the grammar |
| LemonViable.ReducePullsBack | tora/lempar.c:555-634 | whatever may come after a reduce is an LR(1) lookahead of the complete rule on this very stack, and may come before the reduce |
| LemonViable.Sentential | tools/lemon/lemon.c:1233-1275 | behind the path and the rest of a canonical LR(1) item its lookahead completes a sentential form |
| LemonViable.MayComeContinues | tools/lemon/lemon.c:1233-1275 | if every nonterminal derives a terminal string, tokens derived from a path and a terminal that may come next begin a sentence |
| LemonDecides.TurnPullsBack | tora/lempar.c:709-858 | a reduce, even one done by default on a wrong token, is also done on every terminal that may come after it |
| LemonDecides.FeedPullsBack | tora/lempar.c:709-858 | if a token keeps the loop in Parse reducing for some number of turns, so does a token that belongs to a sentence |
| LemonDecides.TokenSettles | tora/lempar.c:709-858 | so every token comes to an end: with any larger stack and number of turns the call of Parse ends, always with the same result |
| LemonDecides.InputEnds | tora/vm.cc:150-168 | so do all calls for an input and its end marker, also those after a syntax error |
| LemonDecides.DecidesLanguage | tora/lempar.c:709-858 | sentences end in acceptance and all other inputs in a syntax error, with any large enough stack and number of turns |
| LemonDecides.ReadsViablePrefixes | tora/lempar.c:709-858 | the tokens of an input are shifted exactly as long as some sentence begins with them |
| LemonPipeline.CompressedLookup | tora/lempar.c:383-438 | a lookup in arrays that refine the compressed list gives the action of the uncompressed one, or its default |
| LemonPipeline.LengthsRight | tora/lempar.c:542-548 | the stored length of every rule that can be reduced is that of its right-hand side if and only if all of these are shorter than 256 symbols |
| LemonPipeline.GeneratedIsSound | tora/lempar.c:709-858 | the arrays generated from any grammar drive the parser soundly, if no state is disturbed, exactly when every right-hand side that can be reduced is shorter than 256 symbols |
| LemonPipeline.GeneratedChooses | tools/lemon/lemon.c:1014-1027 | in everything generated, the action left on a lookahead is the one chosen by precedence, associativity and rule number |
| LemonPipeline.GeneratedDefault | tools/lemon/lemon.c:4051-4105 | in everything generated, the default of a state is the rule reduced on most terminals, among equals the one on the least terminal |
| LemonPipeline.GeneratedNumbers | tools/lemon/lemon.c:4108-4164 | in everything generated, states with fewer actions have larger numbers |
| LemonPipeline.GeneratedLooksUp | tora/lempar.c:383-438 | if no state is disturbed, the generated arrays give the action that was left |
| LemonPipeline.CalmIsHarmless | tools/lemon/lemon.c:3683-3835 | that no state is disturbed is a condition on the action lists alone |
| LemonPipeline.KeptIsCalm | tools/lemon/lemon.c:529-622 | exact packing is enough for that |
| LemonPipeline.LowTerminalsAreCalm | tools/lemon/lemon.c:3683-3835 | so is an action on terminal 0 or 1 in every state with terminal actions |
| LemonPipeline.GeneratedAcceptsLanguage | tora/lempar.c:709-858 | for an LALR(1) grammar the generated parser then accepts exactly the sentences |
| LemonDecides.GeneratedDecides | tora/lempar.c:709-858 | for an LALR(1) grammar in which every nonterminal derives a terminal string the generated parser decides the language, and shifts no token too many |
| LemonBarren.BarrenReads | tora/lempar.c:709-858 | whatever is generated from `s ::= A x`, `x ::= A x`: the grammar is LALR(1) and the arrays right, yet the parser shifts A although the grammar has no sentence, because `x` derives no terminal string |
| LemonPipeline.Generate | tools/lemon/lemon.c:1471-1500 | from a grammar to the arrays: each stage meets its specification, no conflict is reported exactly for LALR(1) grammars, and the statements above hold of the result |
| LemonCalculator.MultipliesFirst | tools/lemon/lemon.c:1057-1118 | whatever is generated from sums and products of numbers with ADD below MUL and both left-associative: behind a sum MUL is shifted, and ADD there and either operator behind a product make the parser reduce |
| LemonCalculator.GenerateCalculator | tools/lemon/lemon.c:1471-1500 | the generator run on that grammar as it is read, with the precedences of the rules found first; there are such states |
| LemonChain.ChainIs | tools/lemon/lemon.c:731-1043 | for any grammar with one rule over terminals, state number i has read i symbols, shifts the next one or reduces on the end marker, and compression leaves its list alone |
| LemonChain.ChainPlaces | tools/lemon/lemon.c:4135-4164 | its states after the first are renumbered in reverse |
| LemonChain.ChainLayout | tools/lemon/lemon.c:3683-3736 | its rows have one order, with these entries |
| LemonChain.ChainLookup | tora/lempar.c:383-438 | whatever the layout, each of its states finds its own action |
| LemonChain.ChainLanguage | tora/lempar.c:674-688 | its only sentence is the right-hand side |
| LemonFailures.CollidingFails | tools/lemon/lemon.c:585-607 | whatever is generated from `s ::= T^17 Q`: the grammar is LALR(1) and its rule short, yet the packed rows are not exact, a state is disturbed, and the state after `T^16` looks up a shift on Q that it does not have |
| LemonFailures.CollidingRun | tora/lempar.c:555-634 | after `T^16 Q`, which is not a sentence, the driver reduces eighteen symbols and has seventeen |
| LemonFailures.GenerateColliding | tools/lemon/lemon.c:1471-1500 | the generator run on that grammar |
| LemonFailures.LongFails | tora/lempar.c:542-548 | whatever is generated from `s ::= T^256`: the grammar is LALR(1) and no state is disturbed, yet the arrays do not drive the parser |
| LemonFailures.LongRun | tora/lempar.c:555-634 | after the sentence `T^256` the driver reduces with stored length 0, and the goto that it then asserts is not there |
| LemonFailures.GenerateLong | tools/lemon/lemon.c:1471-1500 | the generator run on that grammar |
| ToraMachine.PackFits | tora/op.h:26-36 | level and slot come back from the packed operand if and only if both are below 65536 |
| ToraVm.PadList.Set | tora/pad_list.cc:50-78 | the slot gets the value, and slots in between that did not exist are filled with undef |
| ToraVm.PadList.Upper | tora/pad_list.cc:100-106 | the pad that many links up |
| ToraVm.VM.SetVariable | tora/frame.cc:22-27 | writing through the chain of pads changes one slot of one frame |
| ToraVm.VM.GetVariable | tora/pad_list.cc:80-94 | reading through the chain gives the slot of the frame that many below the top |
| ToraVm.VM.Last | vm.inc:391-404 | frames are left down to the nearest loop frame, with the stack cut to its top |
| ToraVm.VM.Turn | vm.inc:3-970 | one turn of the dispatch loop changes the object as the transition function says |
| ToraSyntax.SumsAndDifferences | tora/operator.cc:17-62 | `+` and `-` give the sum and the difference of integers as long as these fit into 32 bits, and nothing of other values |
| ToraSyntax.FalseValues | tora/value.cc:48-57 | exactly `undef` and false are false |
| ToraSyntax.MixedComparisons | tora/operator.cc:214-268 | a comparison with a truth value or `undef` on the right ignores the sign, and one with an integer on the right takes integers only |
| ToraSyntax.SignsMeanWhatTheySay | tora/lexer.re:296-300 | the reversed token names and the reversed operands of the comparisons cancel out |
| ToraCompiler.GenLength | tora/compiler.cc:408-434 | the code of a statement has the length that jump targets are computed with |
| ToraScopes.DeclarationsS | tora/compiler.cc:44-60 | the count that decides on scopes is the number of all declarations inside, and the names of a scope are those declared in it in order |
| ToraScopes.CompilesExactly | tora/compiler.cc:412-434 | the compiler counts no error exactly for programs in which names are declared before use, once in each scope, and every `last` is in a loop, whichever scopes it leaves out |
| ToraScopes.SmallCompiles | tora/op.h:26-36 | with no more than 2^16 declarations and 2^16 - 2 scopes inside each other all variables can be addressed |
| ToraCompiler.LastsAgree | tora/compiler.cc:952-956 | the code with the operands of `last` as they are filled in equals the code in which each leaves its own loop if and only if no loop is compiled while a `last` waits, and the waiting ones get their own label |
| ToraEmit.Compiler.FindLocalvar | tora/compiler.cc:130-155 | level and slot of the innermost declaration, or -1 |
| ToraEmit.Compiler.DefineLocalvar | tora/compiler.h:97-107 | the name joins the current block, or an error is counted |
| ToraEmit.Compiler.CompileE | tora/compiler.cc:733-1062 | appends the code of the expression, with its declarations and errors |
| ToraEmit.Compiler.CompileLogical | tora/compiler.cc:1482-1527 | the short-circuit jump, filled in later, lands behind the right operand |
| ToraEmit.Compiler.CompileBlock | tora/compiler.cc:336-358 | a scope without declarations is left out, one with declarations is entered with their number |
| ToraEmit.Compiler.CompileIf | tora/compiler.cc:863-918 | both jumps filled in, with a scope of its own only if the condition declares something |
| ToraEmit.Compiler.CompileWhile | tora/compiler.cc:919-958 | the loop with its exit filled in, and every waiting `last` given its label |
| ToraEmit.Compiler.CompileFor | tora/compiler.cc:1156-1214 | the same for `for`, inside one scope |
| ToraEmit.Compiler.CompileS | tora/compiler.cc:855-1030 | any statement: blocks, errors, and without errors all operations and waiting operands as one function of those before |
| ToraEmit.Compiler.CompileRoot | tora/compiler.cc:412-434 | the code of a whole program |
| ToraEmit.FillsAll | tora/compiler.cc:952-956 | filling in all waiting operands of a statement gives its code with that operand |
| ToraCorrect.FindReaches | tora/compiler.cc:130-155 | the level and slot found at compile time reach, along the linked pads, the value of the innermost visible declaration, although scopes are left out |
| ToraCorrect.SetKeepsRel | tora/compiler.cc:168-230 | writing there keeps blocks, frames and stores in step |
| ToraCorrect.SimE | tora/compiler.cc:733-1062 | running the code of an expression pushes its value, leaves the stores as the meaning says, and changes nothing below |
| ToraStatements.SimLast | vm.inc:391-404 | `last` leaves exactly the frames up to its loop |
| ToraStatements.SimWhile | tora/compiler.cc:919-958 | a `while` runs as it means, with one condition left on the stack for each iteration until the next statement cuts it |
| ToraStatements.SimFor | tora/compiler.cc:1156-1214 | a `for` runs as it means |
| ToraStatements.SimS | tora/compiler.cc:855-1214 | running the code of any statement ends behind it, or behind its loop after `last`, with frames and pads as it means and nothing below the frame top changed |
| ToraConverse.LostE | tora/compiler.cc:733-1062 | an expression that throws stops the machine inside its code |
| ToraConverse.LostS | tora/compiler.cc:855-1214 | a statement that does not end within some number of iterations keeps the machine from the end of the code for that many steps |
| ToraProgram.CompiledAsIntended | tora/compiler.cc:1471-1481 | the emitted code is the intended one if and only if no loop is compiled while a `last` waits |
| ToraProgram.ProgramRuns | tora/compiler.cc:412-434 | a program that ends, ends at its END operation with its variables holding what it means |
| ToraProgram.ProgramEnds | tora/compiler.cc:412-434 | a machine that reaches its END operation has run a program that ends, with its variables holding what it means |
| ToraProgram.EndsExactly | tora/compiler.cc:412-434 | so the program ends if and only if the machine reaches END; endless programs and those that throw never do |
| ToraProgram.HastyFails | tora/compiler.cc:952-956 | a `last` before an inner loop: the source ends at once, the machine runs out of frames inside the code |

## Left out

Lemon:

- The reader of grammar files, reports, the translation of C code, template files and options; the model starts from the rules.
- `%fallback`, `%wildcard`, multiterminals, the error token, and the `-r` and `-c` modes.
- Allocation failures, and the errors for rules that cannot be reduced and for nonterminals without rules.
- A start symbol on a right-hand side, which the source reports as an error, is excluded where the parser is spoken of.
- Sets as byte arrays are finite sets; configuration lists that the source keeps sorted are identified with sets where only that matters.
- The four chained hash tables: finding a state by its kernel is a search over the table of states, a symbol is its number.
- The C library's `qsort` is modelled by some sorting method, since its comparisons never call two elements equal.
- The last resort of `actioncmp`, the order in memory, plays no role: no two candidates of a state are equal.
- Numbers are unbounded; grammars with 2^31 - 1 or more symbols, or more actions in a state than `msort` can hold, are excluded.
- LemonDriver.Parser.Parse: takes a bound on the turns for one token and reports when it is not enough, because for a cyclic grammar the loop need not end; where it must end is stated in LemonDecides.TokenSettles.
- LemonDriver.Parser.Eval: the same bound holds for every token; LemonDecides.InputEnds says when some bound is enough for all of them.
- LemonComplete.AcceptsLanguage: speaks of acceptance only; LemonDecides.DecidesLanguage says how other inputs end.
- LemonDecides.DecidesLanguage: asks that every nonterminal derives a terminal string, which Lemon does not check; for LALR(1) grammars with other nonterminals only acceptance is characterised. That LemonDecides.ReadsViablePrefixes fails without it is LemonBarren.BarrenReads.
- LemonAutomaton.Generator.FindStates: leaves open in which order the states are found, beyond that each is found from an earlier one; the source goes through lists that it sorts.  Only the last criterion of ResortStates depends on it.
- LemonReport.LowTerminalRowsUndisturbed: a sufficient condition; the exact one is in LemonReport.RefinesIffHarmless.
- Semantic actions, destructors and the minor values on the parser's stack.

Tora:

- ToraSyntax.SumsAndDifferences: the sum of integers that does not fit into 32 bits is left undefined, as C++ leaves it.
- Functions, `return`, `try`, closures, methods and the mark stack; `foreach`, tuples, arrays, hashes, regexps, package and global variables, `local`, `use`, `eval`.
- Values other than integers, booleans and undef; division, modulo and power.
- The grammar of the language and the dispatch loop that a script generates: programs are syntax trees, and a turn executes the operation at `pc` and adds one.
- Statement lists are chains of `Next`, and statements are not operands of expressions; an `if` as an operand is therefore not covered.
- ToraProgram.EndsExactly: an exception and an endless loop are not told apart, neither in the meaning nor at the machine.
- ToraVm.VM.Turn: covers the operations that the part of the language modelled here is compiled to.
- Reference counts, and sharing of values between variables by `++` and `--`.

The message digest, the HTTP parser and the JSON reader and writer under `ext/` are not part of this model.
