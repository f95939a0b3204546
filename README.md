# LL(1) analysis and table-driven parsing for the Bowler language

This project models, in Dafny, the LL(1) engine of the Bowler compiler front end.
The engine has two classes:

* `LL1GrammarAnalyzer` takes a context-free grammar, given as a map from each
  nonterminal to its ordered list of alternatives, together with its terminal set
  and start symbol. From these it computes:
  * the FIRST sets, by a fixed-point iteration;
  * the FOLLOW sets, by a second fixed point seeded with `EOF` in the start
    symbol's set;
  * the LL(1) parsing table `M[A][t]`.

  When two productions compete for a cell, a policy decides. A non-ε production
  replaces an ε-production. An ε-production never displaces a non-ε one. Any
  other clash keeps the first writer. Every clash is logged.
* `LL1StackParser` runs the classic predictive stack machine over the lexer's
  tokens. The stack starts as `$ S`. A terminal on top must equal the lookahead
  token's terminal label and is then popped. A nonterminal `A` on top is
  replaced by `M[A][lookahead]`, pushed in reverse. Reaching `$` with `EOF` as
  the lookahead accepts.

A token's terminal label is computed by `tokenToTerminal`. The parser class
runs it as written, including its missing case for the `do` keyword (see
"## Findings"). The corrected labelling is `Tokens.Terminal`. The stack machine
takes the labels as data, so every run lemma holds for either labelling.

Functions that only compute are stated through the lemmas about them:
* `ConflictPolicy.Resolve` (the three-way branch) through `ResolveProperties` and `CellAfterIsPreferred`.
* `StackMachine.Step` (one loop iteration) through `StepOnTerminal`, `StepOnNonTerminal`, `ExpandPushesInOrder`, `OnlyEndMarkerAccepts`, `StepConsumes` and `StepMovesForward`.
* `StackMachine.IsTerminal` (`isTerminal`) through `NoInvalidSymbol`.
* `Tokens.TerminalAsWritten` and `Tokens.TokenToTerminal` through the `Tokens` lemmas, against the lexer's tables `KeywordType` and `OperatorType`.

The model keeps the imperative shape of both classes. The analyzer is a Dafny
class whose methods update `first`, `follow`, `parsingTable` and `conflicts` in
place, one loop level per method. The parser is a class whose `Parse` loop
updates `stack` and `current`. Each method is proved against value-level
specification functions:

* `GrammarSpec`: FIRST of a sequence, the FIRST and FOLLOW equations, the
  predict sets.
* `TableSpec`: one offer of a production to a cell, and the table builder's state.
* `StackMachine`: one step and a whole run of the parser.

The properties are then proved about those functions:

* The FIRST and FOLLOW results are the *least* solutions of their equations.
* The table holds exactly the justified cells.
* No conflict is logged exactly when the grammar is LL(1).
* An accepted parse yields a leftmost derivation of the consumed terminals from
  the start symbol.

Modules, one per file:

| file | module | contents |
|---|---|---|
| `wrappers.dfy` | `Wrappers` | `Option` |
| `grammar_spec.dfy` | `GrammarSpec` | grammar, FIRST/FOLLOW/predict specifications and their lemmas |
| `conflict_policy.dfy` | `ConflictPolicy` | the cell-conflict policy and the conflict record |
| `table_spec.dfy` | `TableSpec` | one offer to the table, the builder's state, the completed-table theorem |
| `grammar_analyzer.dfy` | `GrammarAnalyzer` | class `LL1GrammarAnalyzer` |
| `tokens.dfy` | `Tokens` | token kinds, tokens, the token-to-terminal translation, the lexer's keyword table |
| `stack_machine.dfy` | `StackMachine` | the parser as a step function, and soundness of accepted runs |
| `stack_parser.dfy` | `StackParser` | class `LL1StackParser` |

## Model

| member | source | states |
|---|---|---|
| GrammarAnalyzer.LL1GrammarAnalyzer.constructor | Bowler-main/trabalho_compiladores/java/src/LL1GrammarAnalyzer.java:31-44 | the nonterminals are the production map's keys; every FIRST and FOLLOW set starts empty; table and conflict log start empty |
| GrammarAnalyzer.LL1GrammarAnalyzer.FirstOf | Bowler-main/trabalho_compiladores/java/src/LL1GrammarAnalyzer.java:73-103 | the loop computes FIRST of the sequence: {ε} for the empty sequence; otherwise the scan's terminals, plus ε exactly when every symbol is nullable |
| GrammarSpec.ScanFirstExact | Bowler-main/trabalho_compiladores/java/src/LL1GrammarAnalyzer.java:81-94 | x is produced by the scan iff some position is reached past skipped or nullable symbols and contributes x there (a terminal itself, or a non-ε member of a nonterminal's FIRST) |
| GrammarSpec.ScanFirstTerminals | Bowler-main/trabalho_compiladores/java/src/LL1GrammarAnalyzer.java:81-94 | with FIRST sets within terminals plus ε, the scan yields only terminals |
| GrammarSpec.SeqFirstWithin | Bowler-main/trabalho_compiladores/java/src/LL1GrammarAnalyzer.java:73-103 | FIRST of any sequence stays within the terminals plus ε |
| GrammarSpec.SeqFirstEpsilonIff | Bowler-main/trabalho_compiladores/java/src/LL1GrammarAnalyzer.java:96-100 | ε is in FIRST(α) iff every symbol of α is nullable (both directions) |
| GrammarSpec.SeqFirstTerminalHead | Bowler-main/trabalho_compiladores/java/src/LL1GrammarAnalyzer.java:82-84 | FIRST of a sequence starting with a declared terminal is exactly that terminal |
| GrammarSpec.ScanFirstMonotone | Bowler-main/trabalho_compiladores/java/src/LL1GrammarAnalyzer.java:85-93 | the scan is monotone in the FIRST sets |
| GrammarSpec.SeqFirstMonotone | Bowler-main/trabalho_compiladores/java/src/LL1GrammarAnalyzer.java:73-103 | FIRST of a sequence is monotone in the FIRST sets |
| GrammarSpec.FirstUpdate | Bowler-main/trabalho_compiladores/java/src/LL1GrammarAnalyzer.java:58-61 | FIRST(A) ∪= FIRST(α) only grows, stays within terminals plus ε, changes only A, and absorbs FIRST(α) |
| GrammarSpec.FirstUpdateStaysBelow | Bowler-main/trabalho_compiladores/java/src/LL1GrammarAnalyzer.java:58-61 | the update never overtakes any solution of the FIRST equations above the starting sets |
| GrammarAnalyzer.LL1GrammarAnalyzer.AddProductionFirsts | Bowler-main/trabalho_compiladores/java/src/LL1GrammarAnalyzer.java:55-61 | after the inner loop FIRST(α) ⊆ FIRST(A) for every production of A; no other set changes; solutions above the old sets stay above the new ones |
| GrammarSpec.MissingShrinks | Bowler-main/trabalho_compiladores/java/src/LL1GrammarAnalyzer.java:63-65 | a set that grew strictly shrinks the finite measure of missing (nonterminal, symbol) pairs, so the fixed-point loops terminate |
| GrammarAnalyzer.LL1GrammarAnalyzer.CalculateFirst | Bowler-main/trabalho_compiladores/java/src/LL1GrammarAnalyzer.java:49-68 | terminates; the sets only grow; the result satisfies FIRST(α) ⊆ FIRST(A) for every production and is the least such family above the starting sets |
| GrammarSpec.FollowStepProperties | Bowler-main/trabalho_compiladores/java/src/LL1GrammarAnalyzer.java:120-143 | one FOLLOW update only adds, stays within terminals plus EOF, changes only FOLLOW(α[i]), and leaves that position's FOLLOW equation satisfied |
| GrammarSpec.FollowStepStaysBelow | Bowler-main/trabalho_compiladores/java/src/LL1GrammarAnalyzer.java:122-139 | one FOLLOW update never overtakes any solution of the FOLLOW equations above the starting sets |
| GrammarSpec.FollowStepAdvances | Bowler-main/trabalho_compiladores/java/src/LL1GrammarAnalyzer.java:122-143 | one FOLLOW update is an advance, and it reports growth exactly when the updated set got larger, as the source's size comparison does |
| GrammarAnalyzer.LL1GrammarAnalyzer.AddFollowsAt | Bowler-main/trabalho_compiladores/java/src/LL1GrammarAnalyzer.java:120-143 | the branch structure of the update: FIRST(β) added, ε removed, FOLLOW(A) added when ε ∈ FIRST(β), or FOLLOW(A) added at the end; `grew` iff the set got larger |
| GrammarAnalyzer.LL1GrammarAnalyzer.AddFollowsIn | Bowler-main/trabalho_compiladores/java/src/LL1GrammarAnalyzer.java:119-145 | the positions of one production are an advance; if nothing grew, nothing changed and every position's FOLLOW equation holds |
| GrammarAnalyzer.LL1GrammarAnalyzer.AddFollowsOf | Bowler-main/trabalho_compiladores/java/src/LL1GrammarAnalyzer.java:118-146 | the same for all productions of one nonterminal |
| GrammarAnalyzer.LL1GrammarAnalyzer.FollowPass | Bowler-main/trabalho_compiladores/java/src/LL1GrammarAnalyzer.java:115-147 | one pass over all nonterminals: if no set grew, the sets are unchanged and every FOLLOW equation holds |
| GrammarAnalyzer.LL1GrammarAnalyzer.CalculateFollow | Bowler-main/trabalho_compiladores/java/src/LL1GrammarAnalyzer.java:108-149 | terminates; EOF ∈ FOLLOW(start); the sets only grow; every FOLLOW equation holds and the result is the least solution above the starting sets |
| ConflictPolicy.ResolveProperties | Bowler-main/trabalho_compiladores/java/src/LL1GrammarAnalyzer.java:168-191 | the cell holds the old or the new production; a conflict is logged iff a different production was there; the cell changes iff the conflict is Resolved; a non-ε production is never displaced; Ignored iff non-ε kept over ε |
| ConflictPolicy.CellAfterIsPreferred | Bowler-main/trabalho_compiladores/java/src/LL1GrammarAnalyzer.java:168-191 | after any sequence of offers a cell holds the first non-ε production offered, or the ε-production if nothing else was offered |
| ConflictPolicy.PreferredSnoc | Bowler-main/trabalho_compiladores/java/src/LL1GrammarAnalyzer.java:174-182 | one more offer replaces a preferred ε-production and keeps a preferred non-ε one |
| GrammarSpec.GetProduction | Bowler-main/trabalho_compiladores/java/src/LL1StackParser.java:118-125 | the lookup is present iff the row and the cell exist, and it is the cell's production |
| TableSpec.OfferCell | Bowler-main/trabalho_compiladores/java/src/LL1GrammarAnalyzer.java:168-191 | one offer changes only cell M[A][t]; a non-ε production wins over ε; logged conflicts are the clash at that cell with the kind the policy assigns |
| TableSpec.OfferKeepsCells | Bowler-main/trabalho_compiladores/java/src/LL1GrammarAnalyzer.java:166-193 | after an offer every cell holds an offered production and every offer is filled |
| TableSpec.OfferKeepsState | Bowler-main/trabalho_compiladores/java/src/LL1GrammarAnalyzer.java:166-218 | offering a production for one of its lookaheads keeps the builder's state: justified offers, filled cells, genuine conflicts |
| TableSpec.EmptyTableState | Bowler-main/trabalho_compiladores/java/src/LL1GrammarAnalyzer.java:156-158 | a table of empty rows is a valid start for the builder |
| TableSpec.CompleteTable | Bowler-main/trabalho_compiladores/java/src/LL1GrammarAnalyzer.java:155-224 | once every lookahead of every production was offered: cells exactly justified and complete, non-ε preferred, no conflict iff LL(1), and then each cell holds its unique predicting production |
| TableSpec.RowFromProductions | Bowler-main/trabalho_compiladores/java/src/LL1GrammarAnalyzer.java:161-222 | a row is fully offered once each of its productions, taken in list order, has been |
| GrammarAnalyzer.LL1GrammarAnalyzer.PutEntry | Bowler-main/trabalho_compiladores/java/src/LL1GrammarAnalyzer.java:168-191 | the three-way branch equals one offer under the policy: the new table and the appended conflict records |
| GrammarAnalyzer.LL1GrammarAnalyzer.PutEntries | Bowler-main/trabalho_compiladores/java/src/LL1GrammarAnalyzer.java:166-193 | offering for every lookahead of a set, in any order, keeps the builder's state and records every offer |
| GrammarAnalyzer.LL1GrammarAnalyzer.AddProductionEntries | Bowler-main/trabalho_compiladores/java/src/LL1GrammarAnalyzer.java:163-219 | FIRST(α)−{ε}, then FOLLOW(A) when ε ∈ FIRST(α), are offered: the production is offered for its whole predict set |
| GrammarAnalyzer.LL1GrammarAnalyzer.AddRowEntries | Bowler-main/trabalho_compiladores/java/src/LL1GrammarAnalyzer.java:161-222 | every production of the row is offered for its whole predict set |
| GrammarAnalyzer.LL1GrammarAnalyzer.ResetRows | Bowler-main/trabalho_compiladores/java/src/LL1GrammarAnalyzer.java:156-158 | every nonterminal gets a fresh empty row |
| GrammarAnalyzer.LL1GrammarAnalyzer.FillRows | Bowler-main/trabalho_compiladores/java/src/LL1GrammarAnalyzer.java:160-223 | all rows offered, the builder's state kept, the log only appended to |
| GrammarAnalyzer.LL1GrammarAnalyzer.BuildParsingTable | Bowler-main/trabalho_compiladores/java/src/LL1GrammarAnalyzer.java:155-224 | one row per nonterminal; cells exactly the justified ones and all of them; non-ε preferred; new conflicts genuine; no new conflict iff LL(1), and then each cell holds its predicting production |
| Tokens.KeywordLabelAsWritten | Bowler-main/trabalho_compiladores/java/src/LL1StackParser.java:130-258 | as written, the label of a keyword kind is the reserved word the lexer scans as that kind exactly when the kind is not DO; DO's label "DO" is no reserved word |
| Tokens.DeclarationKeywordsSpelled | Bowler-main/trabalho_compiladores/java/src/LL1StackParser.java:137-180 | the type, declaration, literal and branching keyword kinds (var … else) are labelled by the word the lexer scans as them (Lexer.java:15-25) |
| Tokens.StatementKeywordsSpelled | Bowler-main/trabalho_compiladores/java/src/LL1StackParser.java:137-176 | the loop and statement keyword kinds other than DO (while … main) are labelled by the word the lexer scans as them (Lexer.java:26-37) |
| Tokens.DoKeywordAsWritten | Bowler-main/trabalho_compiladores/java/src/LL1StackParser.java:255-256 | as written, `do` is scanned as DO (Lexer.java:27), which falls to the default case and is labelled "DO", a word the lexer does not scan as DO |
| Tokens.KeywordLabelIsSpelling | Bowler-main/trabalho_compiladores/java/src/LL1StackParser.java:130-258 | with the missing `case DO` supplied (`Tokens.Terminal`), every keyword kind is labelled by the word the lexer scans as it |
| Tokens.OperatorLabelIsSpelling | Bowler-main/trabalho_compiladores/java/src/LL1StackParser.java:191-253 | every operator and delimiter kind is labelled by the lexeme the lexer scans as that kind (Lexer.java:60-140) |
| Tokens.DelimitersSpelled | Bowler-main/trabalho_compiladores/java/src/LL1StackParser.java:192-213 | the delimiter kinds ( ) { } [ ] ; : , . ? are labelled by their lexeme |
| Tokens.ArithmeticOperatorsSpelled | Bowler-main/trabalho_compiladores/java/src/LL1StackParser.java:214-253 | the arithmetic and compound-assignment kinds are labelled by their lexeme |
| Tokens.LogicOperatorsSpelled | Bowler-main/trabalho_compiladores/java/src/LL1StackParser.java:224-243 | the assignment, comparison and logical kinds are labelled by their lexeme |
| Tokens.ValueKindsNamed | Bowler-main/trabalho_compiladores/java/src/LL1StackParser.java:131-189 | identifiers, number, string and character literals, the interpolated string and EOF are labelled by their kind's name, so the grammar refers to them by it |
| StackParser.Labels | Bowler-main/trabalho_compiladores/java/src/LL1StackParser.java:61 | one label per token, each the token's terminal label as the source computes it (`tokenToTerminal` as written) |
| StackParser.DoLookaheadHasNoEntry | Bowler-main/trabalho_compiladores/java/src/LL1StackParser.java:89-95 | as written, with a DO token as lookahead and a nonterminal on top whose row has no "DO" cell, the parser stops with a missing table entry, whatever the row holds for "do" |
| StackParser.DoInputRejectedAsWritten | Bowler-main/trabalho_compiladores/java/src/LL1StackParser.java:46-113 | as written, the input `do` with M[S]["do"] = do is rejected for want of the cell M[S]["DO"] |
| StackParser.DoInputAcceptedCorrected | Bowler-main/trabalho_compiladores/java/src/LL1StackParser.java:46-113 | with the corrected labels, the same input and table are accepted |
| StackParser.LL1StackParser.constructor | Bowler-main/trabalho_compiladores/java/src/LL1StackParser.java:33-41 | the parser keeps the tokens, table and symbol sets, at position 0 with an empty stack |
| StackParser.LL1StackParser.Peek | Bowler-main/trabalho_compiladores/java/src/LL1StackParser.java:275-280 | the token at the position, or past the end an EOF token with line -1 labelled "EOF" |
| StackParser.LL1StackParser.Advance | Bowler-main/trabalho_compiladores/java/src/LL1StackParser.java:282-286 | the position moves one token on, never past the end |
| StackMachine.Reverse | Bowler-main/trabalho_compiladores/java/src/LL1StackParser.java:100-105 | index i of the result is index n-1-i of the input |
| StackParser.LL1StackParser.PushReversed | Bowler-main/trabalho_compiladores/java/src/LL1StackParser.java:100-105 | pushing from the last symbol down appends the production reversed |
| StackParser.LL1StackParser.ParseStep | Bowler-main/trabalho_compiladores/java/src/LL1StackParser.java:58-108 | one loop iteration is exactly one machine step, with the same verdict on halting and the same new stack and position otherwise |
| StackParser.LL1StackParser.Parse | Bowler-main/trabalho_compiladores/java/src/LL1StackParser.java:46-113 | pushes `$` and the start symbol and returns the verdict, final stack and position of the machine's run |
| StackMachine.NoInvalidSymbol | Bowler-main/trabalho_compiladores/java/src/LL1StackParser.java:263-265 | because every non-nonterminal counts as a terminal, the "invalid symbol" error never occurs |
| StackMachine.ExpandPushesInOrder | Bowler-main/trabalho_compiladores/java/src/LL1StackParser.java:97-105 | expanding by α leaves the stack below untouched and puts α's first symbol on top with α read top-down; an ε-production only pops |
| StackMachine.StepKeepsEndMarker | Bowler-main/trabalho_compiladores/java/src/LL1StackParser.java:67-74 | a step that goes on never removes `$` |
| StackMachine.RunNeverEmpties | Bowler-main/trabalho_compiladores/java/src/LL1StackParser.java:111-112 | once `$` is on the stack the run never ends with an empty stack, so `return false` is unreachable |
| StackMachine.StepMovesForward | Bowler-main/trabalho_compiladores/java/src/LL1StackParser.java:282-286 | whether it halts or goes on, a step leaves the read position where it was or moves it one token on, as `advance` does |
| StackMachine.RunCurrentBounded | Bowler-main/trabalho_compiladores/java/src/LL1StackParser.java:282-286 | the read position only moves forward and never past the end |
| StackMachine.AcceptedAtEof | Bowler-main/trabalho_compiladores/java/src/LL1StackParser.java:67-70 | acceptance happens only with `$` on top and a lookahead labelled "EOF" |
| StackMachine.OnlyEndMarkerAccepts | Bowler-main/trabalho_compiladores/java/src/LL1StackParser.java:67-74 | with anything but `$` on top a step never accepts |
| StackMachine.AcceptedGoesOn | Bowler-main/trabalho_compiladores/java/src/LL1StackParser.java:57-74 | an accepted run whose top is not `$` takes at least one more step |
| StackMachine.RunNext | Bowler-main/trabalho_compiladores/java/src/LL1StackParser.java:57-109 | a run that goes on is the step followed by the rest of the run, the step's terminal and expansion first |
| StackMachine.StepConsumes | Bowler-main/trabalho_compiladores/java/src/LL1StackParser.java:78-82 | a step either matches the lookahead's label and advances, or consumes nothing and stays |
| StackMachine.ConsumedAfterMatch | Bowler-main/trabalho_compiladores/java/src/LL1StackParser.java:78-82 | matching the lookahead extends the consumed input by its label |
| StackMachine.MatchedIsInput | Bowler-main/trabalho_compiladores/java/src/LL1StackParser.java:77-87 | the terminals a run matches are the labels of the tokens it moved past, then only "EOF" labels |
| StackMachine.StepOnTerminal | Bowler-main/trabalho_compiladores/java/src/LL1StackParser.java:77-87 | a matching step pops exactly the terminal and consumes it |
| StackMachine.StepOnNonTerminal | Bowler-main/trabalho_compiladores/java/src/LL1StackParser.java:89-105 | an expanding step replaces A by the reversed body of M[A][lookahead] and consumes nothing |
| StackMachine.ExpandForm | Bowler-main/trabalho_compiladores/java/src/LL1StackParser.java:100-105 | read top-down, the stack after an expansion is the production's body followed by what was there |
| StackMachine.RunSound | Bowler-main/trabalho_compiladores/java/src/LL1StackParser.java:46-113 | an accepted run's expansions form a leftmost derivation, from the symbols above `$`, of exactly the terminals it matched |
| StackMachine.RunSoundMatch | Bowler-main/trabalho_compiladores/java/src/LL1StackParser.java:77-87 | the soundness step for a match |
| StackMachine.RunSoundExpand | Bowler-main/trabalho_compiladores/java/src/LL1StackParser.java:89-105 | the soundness step for an expansion |
| StackMachine.AcceptedRunDerives | Bowler-main/trabalho_compiladores/java/src/LL1StackParser.java:46-113 | an accepted parse of S: a leftmost derivation from S of the matched terminals, which are the labels of the tokens read, ending on an "EOF" lookahead |
| StackParser.AnalyzedTableParses | Bowler-main/trabalho_compiladores/java/src/Bowler.java:130-137 | a table built by the analyzer, handed to the parser with the analyzer's nonterminals, meets what the soundness theorem needs |

## Left out

- Printing (`printFirst`, `printFollow`, `printParsingTable`, `printParseStep` and every trace line of `parse`) and `System.err` output are not modelled.
- The getters of the analyzer are not modelled as methods. The model's fields are read directly.
- The `main` demonstration grammar of the analyzer and the Bowler grammar that `Bowler.java` builds are not modelled. The model holds for every grammar.
- The field `firstOfStr` is declared in the source and never used, so it is not modelled.
- A conflict is recorded as a `Conflict` value (kind, nonterminal, terminal, existing and candidate production) instead of the source's message string.
- `java.util.HashMap` and `HashSet` iteration order is not modelled. The order of the nonterminals is an arbitrary sequence fixed in the constructor. The order of the lookaheads in a set is an arbitrary pick. Every stated property holds for every order.
- `ParseError` exceptions are verdicts `Rejected(error)`. A production with no symbols makes the source throw at `production.get(0)` after the pop. That case is the verdict `EmptyProduction`.
- StackParser.LL1StackParser.Parse: it takes a step budget `fuel`, and `OutOfFuel` is a verdict the source does not have. The source's loop is unbounded, and Dafny methods here must terminate. With enough fuel the verdict is the source's.
- GrammarAnalyzer.LL1GrammarAnalyzer.CalculateFollow: it requires the start symbol to be a nonterminal. The source throws `NullPointerException` otherwise.
- Tokens.Token: it keeps the kind, lexeme and line. The literal value and column are not used by the core.
- `Token.java` and `TokenType.java` are not part of this model. The token kinds are those `Lexer.java` and `LL1StackParser.java` name.
- StackMachine.AcceptedAtEof: it states that the lookahead's label is "EOF", which is what the source tests. It does not prove that only the EOF token kind has that label.
- StackMachine.AcceptedRunDerives: it proves only soundness (an accepted parse derives the tokens read). The converse, that every sentence an LL(1) grammar derives is accepted, is not proved: it needs an induction over derivations together with the table's completeness, which is beyond this model.
- `isTerminal` is modelled as the predicate `StackMachine.IsTerminal`, and `getProduction` as `GrammarSpec.GetProduction`. Neither is a separate method of the class.

## Findings

| source | as written | input that shows it | evidently intended | confidence | as-written member | corrected member |
|---|---|---|---|---|---|---|
| Bowler-main/trabalho_compiladores/java/src/LL1StackParser.java:130-258 | `tokenToTerminal` has no case for `TokenType.DO`, so the `default` branch returns "DO" | the keyword `do` (Lexer.java:27) yields a DO token labelled "DO", while the grammar's terminal is "do" (Bowler.java:269, 300), so every `do … while` statement is rejected with a missing table entry | a `case DO: return "do";` like every other keyword | not executed | StackParser.DoLookaheadHasNoEntry | Tokens.KeywordLabelIsSpelling |
