# Decaf static analysis: a verified model

This project models the static-analysis pass of a Decaf compiler (`src/p3-analysis.c`).
The pass walks the parsed syntax tree once. Before it runs, the symbol-table phase has
attached a scope to every program, function and block node. During the walk the pass
writes an inferred `type` attribute on expression and statement nodes and appends
diagnostics to an error list. It reports:

- undefined symbols;
- duplicate declarations;
- `void` variables;
- variables named `main`;
- negative array lengths;
- bad array accesses;
- `break` and `continue` outside a loop;
- operand, assignment, return, condition and argument type mismatches;
- a missing or parameterised `main`.

The model has five modules:

- `DecafAst` (`ast.dfy`) holds the syntax tree, symbols, scopes and diagnostics as datatypes.
- `AnalysisRules` (`rules.dfy`) holds one pure function per callback decision: which type a pre-visit writes, and which diagnostics a check appends. The callbacks call these functions. Each function's contract states when it reports. Some rules are also proved against an independent description of what they decide: the operand rule table for binary operators (`BinopDiags`, `BinopType`), the scope's repeated names for duplicates (`DuplicateDiags`), the closed form of the fall-through (`UnopTypes`), and the exclusive `main` reports (`MainDiags`). Duplicate detection also has its counting loop as a method, proved to compute the counting function.
- `AnalysisSpec` (`walk.dfy`) describes a whole traversal as functions over the analysis state. At each node it applies the registered pre-visit callback, then walks the children in source order, then applies the registered post-visit callback.
- `Analysis` (`analyzer.dfy`) is the visitor as a class.
  - Its fields are the analysis data, the error list and the attribute map.
  - It has one method per callback, with the source's branches.
  - Traversal methods dispatch to exactly the callbacks `analyze` registers. Each traversal method is proved to leave the state the corresponding `Walk…` function describes.
  - `Analyze` is the entry point, including the null-tree path.
- `AnalysisProperties` (`props.dfy`) and `AnalysisScenarios` (`scenarios.dfy`) hold properties of whole traversals and concrete fragments.

The model keeps the behaviour of the callbacks exactly as they are registered:

- **Loop flag never cleared.** `post_while` is defined but never registered. So the in-while flag is only ever set: once a loop has been walked, no later `break` or `continue` is reported, even in a later function.
- **While conditions unchecked.** A while loop's condition is never checked against BOOL.
- **No scope restore on block exit.** No callback runs when a block is left. The current scope is restored only when a function declaration is left, and then to the program scope.
- **Negation typed BOOL.** The `NEGOP` case of `pre_unop` falls through into `NOTOP`. So every unary node is typed BOOL, and the negation of an int is reported.
- **Array lengths.** A declared array length is rejected only when it is below zero.
- **Duplicates.** Every declaration of a name that its scope holds twice is reported, the first one included.

## Model

| member | source | states |
|---|---|---|
| AnalysisRules.ResolvedType | src/p3-analysis.c:229-243 | the type written for a looked-up node is the symbol's type, or VOID when the lookup fails |
| AnalysisRules.VarDeclDiags | src/p3-analysis.c:187-209 | a void declaration, a variable named `main` and an array with negative length are each reported exactly when the condition holds, nothing else is reported, and no diagnostic repeats |
| AnalysisRules.CountNamedPositive | src/p3-analysis.c:149-156 | the number of scope entries carrying a name is positive exactly when some entry carries it |
| AnalysisRules.CountNamedTwice | src/p3-analysis.c:149-163 | the count exceeds one exactly when two different positions of the scope carry the name |
| AnalysisRules.CountMatching | src/p3-analysis.c:147-156 | the counting loop over the scope's local symbols returns the number of entries with the given name |
| AnalysisRules.DuplicateDiags | src/p3-analysis.c:144-163 | at most one duplicate report, on the declaration's own line, exactly when the scope declares the name twice |
| AnalysisRules.BinopType | src/p3-analysis.c:308-321 | INT exactly for the arithmetic operators, BOOL exactly for the logical, equality and relational ones |
| AnalysisRules.BinopDiags | src/p3-analysis.c:502-539 | at most one report, carrying line, operator and both operand types, exactly when the operands break the operator's rule (both BOOL, equal, or both INT) |
| AnalysisRules.UnopTypes | src/p3-analysis.c:326-337 | after the switch with its fall-through, the unary node is typed BOOL for both operators and no other node changes |
| AnalysisRules.UnopDiags | src/p3-analysis.c:544-553 | one report exactly when the unary node's type differs from its operand's |
| AnalysisRules.LocationDiags | src/p3-analysis.c:378-411 | without an index: an undefined name is reported, and so is a defined name whose length exceeds one. With an index: nothing exactly when 0 <= index < length, a negative index is reported as such, any other index as out of bounds |
| AnalysisRules.ArgumentDiags | src/p3-analysis.c:566-575 | one report exactly when the first parameter's type differs from the first argument's |
| AnalysisRules.AssignmentDiags | src/p3-analysis.c:450-461 | one report exactly when the location's and the value's types differ |
| AnalysisRules.ConditionDiags | src/p3-analysis.c:487-497 | one report exactly when the conditional's BOOL differs from the condition's type |
| AnalysisRules.ReturnDiags | src/p3-analysis.c:466-482 | a bare return is reported exactly when the function is not VOID; a returned VOID value is never reported; any other value is reported exactly when its type differs |
| AnalysisRules.MainDiags | src/p3-analysis.c:426-445 | "no main" exactly when `main` does not resolve, the parameters report exactly when it has parameters, never both, nothing exactly when it resolves without parameters |
| AnalysisSpec.WalkExpr | src/p3-analysis.c:594-610 | an expression changes only the error list, by appending, and the attributes: no function, scope or loop flag |
| AnalysisSpec.WalkLocation | src/p3-analysis.c:589-607 | a location changes only the error list, by appending, and the attributes |
| AnalysisSpec.WalkCall | src/p3-analysis.c:597-604 | a call changes only the error list, by appending, and the attributes |
| AnalysisSpec.WalkExprs | src/p3-analysis.c:597-604 | the arguments of a call, walked in order, change only the error list, by appending, and the attributes |
| AnalysisSpec.WalkVarDecl | src/p3-analysis.c:187-209 | a declaration changes only errors and attributes: it appends its own diagnostics (pre-visit) before its duplicate report (post-visit), and types its node with the declared type |
| AnalysisSpec.WalkVarDecls | src/p3-analysis.c:370-373 | declarations change only the error list, by appending, and the attributes |
| AnalysisSpec.WalkStmt | src/p3-analysis.c:256-261 | after a statement the in-while flag is set exactly when it was set before or the statement contains a loop, the current function is kept, and diagnostics are only appended |
| AnalysisSpec.WalkBlock | src/p3-analysis.c:179-182 | a block's walk sets the loop flag exactly when it was set or the block contains a loop, and diagnostics are only appended |
| AnalysisSpec.WalkStmts | src/p3-analysis.c:256-261 | a statement sequence sets the loop flag exactly when it was set or some statement contains a loop |
| AnalysisSpec.WalkFuncDecl | src/p3-analysis.c:417-421 | leaving a function clears the current function and makes the program scope current; the loop flag stays set if the body had a loop |
| AnalysisSpec.WalkFuncDecls | src/p3-analysis.c:417-421 | after at least one function, no function is current and the program scope is current; the loop flag is set exactly when it was set or some function body has a loop |
| AnalysisSpec.WalkProgram | src/p3-analysis.c:170-174 | the program's scope is the program table after the walk, and diagnostics are only appended |
| AnalysisProperties.ExprQuiet | src/p3-analysis.c:594-610 | an expression never adds a program-level or break/continue diagnostic |
| AnalysisProperties.LocationQuiet | src/p3-analysis.c:378-411 | the same for a location and its index |
| AnalysisProperties.CallQuiet | src/p3-analysis.c:566-575 | the same for a call and its arguments |
| AnalysisProperties.ExprsQuiet | src/p3-analysis.c:566-575 | the same for a call's argument list |
| AnalysisRules.DeclarationDiagKinds | src/p3-analysis.c:187-209 | a declaration reports only void, name, array-length and duplicate diagnostics |
| AnalysisProperties.VarDeclsQuiet | src/p3-analysis.c:370-373 | declarations never add a program-level or break/continue diagnostic |
| AnalysisProperties.StmtQuiet | src/p3-analysis.c:284-303 | a statement never adds a program-level diagnostic, and adds no break/continue report when walked inside a loop |
| AnalysisProperties.AssignmentQuiet | src/p3-analysis.c:450-461 | the same for an assignment |
| AnalysisProperties.ConditionalQuiet | src/p3-analysis.c:487-497 | the same for a conditional and both its branches |
| AnalysisProperties.WhileQuiet | src/p3-analysis.c:256-261 | a while loop's condition and body never report a break or continue, whatever the flag was before |
| AnalysisProperties.ReturnQuiet | src/p3-analysis.c:466-482 | a return never adds a program-level or loop-control diagnostic |
| AnalysisProperties.BlockQuiet | src/p3-analysis.c:179-182 | the same for a block |
| AnalysisProperties.StmtsQuiet | src/p3-analysis.c:284-303 | the same for a statement sequence |
| AnalysisProperties.FuncDeclQuiet | src/p3-analysis.c:214-224 | a function declaration never adds a program-level diagnostic, nor a break/continue one when the loop flag was already set |
| AnalysisProperties.FuncDeclsQuiet | src/p3-analysis.c:417-421 | the same for a list of function declarations |
| AnalysisProperties.LoopBodyNeverReportsLoopControl | src/p3-analysis.c:256-261 | no break or continue anywhere in a while loop is reported |
| AnalysisProperties.LoopControlOutsideLoopReported | src/p3-analysis.c:284-303 | with the flag clear, a break or continue appends exactly its report, on its line |
| AnalysisProperties.LoopFlagOutlivesLoop | src/p3-analysis.c:558-561 | once a statement sequence has walked a loop, no later break or continue in that sequence is reported, because the flag is never cleared |
| AnalysisProperties.LoopFlagOutlivesFunction | src/p3-analysis.c:417-421 | after functions one of whose bodies has a loop, the flag is still set and no break or continue in any later function is reported |
| AnalysisProperties.VarDeclAdds | src/p3-analysis.c:144-163 | one declaration's diagnostics include its duplicate report exactly when the name is declared twice, and no other duplicate report |
| AnalysisProperties.VarDeclsAdded | src/p3-analysis.c:187-209 | a declaration list adds the first declaration's diagnostics, then what the rest of the list adds |
| AnalysisProperties.RepeatsReportedStep | src/p3-analysis.c:144-163 | if the rest of a list has all its repeated declarations reported, so does the whole list once the first declaration's reports are prepended |
| AnalysisProperties.EveryRepeatedDeclarationReported | src/p3-analysis.c:370-373 | every declaration of a name its scope holds twice has its report, on its own line, among the diagnostics |
| AnalysisProperties.DuplicateReportsStep | src/p3-analysis.c:144-163 | among one declaration's diagnostics and those after it, the duplicate reports are its own report, exactly when its name is declared twice, followed by the later ones |
| AnalysisProperties.DuplicateReportsCounted | src/p3-analysis.c:370-373 | the duplicate reports a declaration list adds are exactly one per declaration of a name declared twice, in declaration order, so n such declarations give n reports even on one line |
| AnalysisProperties.DuplicatesJustifiedStep | src/p3-analysis.c:144-163 | one declaration's reports followed by justified reports are all justified |
| AnalysisProperties.OnlyRepeatedDeclarationsReported | src/p3-analysis.c:370-373 | conversely, every duplicate report names one of the declarations, on its line, of a name declared twice |
| AnalysisProperties.MainReportedOnce | src/p3-analysis.c:426-445 | from a fresh analysis a program gets exactly one "no main" when `main` does not resolve, and exactly one parameters report when `main` has parameters |
| AnalysisScenarios.NegationOfIntReported | src/p3-analysis.c:326-337 | `-1` is reported as a BOOL node over an INT operand |
| AnalysisScenarios.NotOfBoolAccepted | src/p3-analysis.c:544-553 | `!true` reports nothing |
| AnalysisScenarios.BothDuplicatesReported | src/p3-analysis.c:144-163 | `int a; int a;` reports both declarations, on lines 2 and 3 |
| AnalysisScenarios.SameLineDuplicatesReportedTwice | src/p3-analysis.c:370-373 | `int a; int a;` on one line gives two identical reports |
| AnalysisScenarios.ZeroLengthArrayAccepted | src/p3-analysis.c:201-205 | a zero-length array is accepted and a length of -1 is reported |
| AnalysisScenarios.WhileConditionNotChecked | src/p3-analysis.c:600-610 | `while (1) { }` reports nothing |
| AnalysisScenarios.BreakAfterLoopAccepted | src/p3-analysis.c:284-291 | a break after a finished loop is not reported |
| AnalysisScenarios.BreakOutsideLoopReported | src/p3-analysis.c:284-291 | a break before any loop is reported on its line |
| AnalysisScenarios.ReturnValueFromVoidReported | src/p3-analysis.c:466-482 | `return 1;` in `void main()` is a VOID/INT mismatch |
| AnalysisScenarios.AssignmentMismatchReported | src/p3-analysis.c:450-461 | `a = true;` for an int `a` is an INT/BOOL mismatch |
| AnalysisScenarios.UndefinedLocationReported | src/p3-analysis.c:378-388 | assigning to an undeclared name reports it undefined and then a VOID/INT mismatch |
| AnalysisScenarios.EmptyProgramWithMainAccepted | src/p3-analysis.c:426-445 | an empty program with a parameterless `main` reports nothing |
| AnalysisScenarios.ProgramWithoutMainReported | src/p3-analysis.c:426-433 | a program where `main` does not resolve reports exactly "no main" |
| Analysis.Analyzer.constructor | src/p3-analysis.c:579-582 | a fresh analysis has no errors, no current function, a clear loop flag and no tables |
| Analysis.Analyzer.Report | src/p3-analysis.c:124 | appends one diagnostic to the error list |
| Analysis.Analyzer.LookupSymbolWithReporting | src/p3-analysis.c:119-127 | returns the lookup and reports the name undefined exactly when the lookup fails |
| Analysis.Analyzer.CheckForDuplicates | src/p3-analysis.c:144-163 | appends the duplicate report of the current scope and nothing else |
| Analysis.Analyzer.PreProgram | src/p3-analysis.c:170-174 | the program's scope becomes both the current and the program table |
| Analysis.Analyzer.PreBlock | src/p3-analysis.c:179-182 | the block's scope becomes current |
| Analysis.Analyzer.PreVarDecl | src/p3-analysis.c:187-209 | appends the declaration's diagnostics and types its node with the declared type |
| Analysis.Analyzer.PreFuncDecl | src/p3-analysis.c:214-224 | sets the current function, types the node with the return type, checks the name for duplicates in the enclosing scope, then enters the function's scope |
| Analysis.Analyzer.PreLocation | src/p3-analysis.c:229-243 | types the location with its symbol's type, VOID when unresolved |
| Analysis.Analyzer.PreConditional | src/p3-analysis.c:248-251 | types the conditional BOOL |
| Analysis.Analyzer.PreWhile | src/p3-analysis.c:256-261 | sets the loop flag and types the loop BOOL |
| Analysis.Analyzer.PreReturn | src/p3-analysis.c:266-279 | types the return with the current function's type, VOID when unresolved |
| Analysis.Analyzer.CheckBreak | src/p3-analysis.c:284-291 | reports the break exactly when the loop flag is clear |
| Analysis.Analyzer.CheckContinue | src/p3-analysis.c:296-303 | reports the continue exactly when the loop flag is clear |
| Analysis.Analyzer.PreBinop | src/p3-analysis.c:308-321 | types the node with the operator's result type |
| Analysis.Analyzer.PreUnop | src/p3-analysis.c:326-337 | writes the attributes as the fall-through switch does |
| Analysis.Analyzer.PreFuncCall | src/p3-analysis.c:342-355 | types the call with the callee's type, VOID when unresolved |
| Analysis.Analyzer.PreLiteral | src/p3-analysis.c:360-363 | types the literal with its own type |
| Analysis.Analyzer.PostVarDecl | src/p3-analysis.c:370-373 | appends the declaration's duplicate report |
| Analysis.Analyzer.PostLocation | src/p3-analysis.c:378-411 | appends the location's diagnostics, reading the index from the index node's literal field |
| Analysis.Analyzer.PostFuncDecl | src/p3-analysis.c:417-421 | clears the current function and makes the program table current |
| Analysis.Analyzer.CheckMain | src/p3-analysis.c:426-445 | appends the `main` diagnostics |
| Analysis.Analyzer.PostAssignment | src/p3-analysis.c:450-461 | appends the assignment's mismatch report, if any |
| Analysis.Analyzer.PostReturn | src/p3-analysis.c:466-482 | appends the return's mismatch report, if any |
| Analysis.Analyzer.PostConditional | src/p3-analysis.c:487-497 | appends the condition's report, if any |
| Analysis.Analyzer.PostBinop | src/p3-analysis.c:502-539 | appends the operand report, if any |
| Analysis.Analyzer.PostUnop | src/p3-analysis.c:544-553 | appends the operand report, if any |
| Analysis.Analyzer.PostWhile | src/p3-analysis.c:558-561 | clears the loop flag (never called: the callback is not registered) |
| Analysis.Analyzer.PostFuncCall | src/p3-analysis.c:566-575 | appends the argument report, if any |
| Analysis.Analyzer.VisitExpr | src/p3-analysis.c:594-610 | dispatching an expression leaves the state its walk describes |
| Analysis.Analyzer.VisitLocation | src/p3-analysis.c:589-607 | the same for a location |
| Analysis.Analyzer.VisitCall | src/p3-analysis.c:597-604 | the same for a call |
| Analysis.Analyzer.VisitExprs | src/p3-analysis.c:597-604 | the same for a call's arguments |
| Analysis.Analyzer.VisitVarDecl | src/p3-analysis.c:587-602 | the same for a declaration |
| Analysis.Analyzer.VisitVarDecls | src/p3-analysis.c:587-602 | the same for a declaration list |
| Analysis.Analyzer.VisitStmt | src/p3-analysis.c:585-610 | the same for a statement, with no post-visit for while loops |
| Analysis.Analyzer.VisitBlock | src/p3-analysis.c:586 | the same for a block, with no post-visit |
| Analysis.Analyzer.VisitStmts | src/p3-analysis.c:585-610 | the same for a statement list |
| Analysis.Analyzer.VisitFuncDecl | src/p3-analysis.c:588-603 | the same for a function declaration |
| Analysis.Analyzer.VisitFuncDecls | src/p3-analysis.c:588-603 | the same for the function list |
| Analysis.Analyzer.VisitProgram | src/p3-analysis.c:585-601 | the same for the program, ending with the `main` check |
| Analysis.Analyze | src/p3-analysis.c:577-627 | a missing tree yields exactly the "Null tree" diagnostic and no attributes; otherwise the error list and the `type` attributes of a fresh traversal of the program, for a tree whose nodes have distinct identities |

## Left out

- Memory management (allocating and freeing the visitor, its data and the error list) is not modelled: it has no observable effect on the diagnostics.
- Message formatting is not modelled. Each diagnostic is a datatype value carrying the fields its message is formatted from, and the type names are not rendered as strings.
- `lookup_symbol` (scoped lookup through the parent chain) is not part of this model. It is the function `Env.lookup` from a node's identity and a name, and nothing is assumed about it.
- The traversal engine `NodeVisitor_traverse` is not part of this model. The order the model uses is: pre-visit, children in source order, post-visit. Children go location before value, condition before branches, and a block's declarations before its statements.
- The error list is a sequence that is only appended to; its own implementation is not part of this model.
- Node identity: each node carries an identity that keys its `type` attribute, standing for the node's address. In the source every node is a separate object with its own attributes. The model matches that only when no identity occurs twice, so `Analysis.Analyze` requires `DistinctIds` of the tree. With a repeated identity, a later write would overwrite an attribute that a post-visit reads.
- `strncmp` with `MAX_ID_LEN` is modelled as equality of names. This ignores names that agree on their first `MAX_ID_LEN` characters only.
- The `DecafType` enumeration is taken to be UNKNOWN, INT, BOOL, VOID, STR, with UNKNOWN as the value a node without a `type` attribute reads as. The header declaring it is not part of this model.
- A statement outside a function cannot occur in a parsed program. `AnalysisSpec.WalkStmt` and its relatives require a current function, which `pre_return` reads.
- AnalysisRules.ArgumentDiags: requires the callee to have a first parameter. The source dereferences the head of the parameter list without a check, so a call to a parameterless function is a crash there, not a behaviour.
- AnalysisRules.LocationDiags: requires an indexed location's name to resolve. The source reads the length of a null symbol otherwise.
- AnalysisSpec.SafeCall: a call must resolve to a function with a parameter and pass an argument. This is the condition under which `post_funcCall` does not dereference a null pointer, and `Analysis.Analyze` requires it (through `AnalysisSpec.SafeProgram`) of every call and indexed location in the tree.
- AnalysisSpec.IndexValue: an index that is not a literal is read through the literal field of whatever node it is. The model takes that integer from `Env.unionInteger`, since its value depends on the node's memory layout.

Where the source's own wording and its code differ, the model follows the code:

- The comment on `post_while` (src/p3-analysis.c:555-557) says it clears the loop flag when a loop is left. `analyze` never registers it, so the flag is set and never cleared.
- The message for an invalid array declaration (src/p3-analysis.c:204) says the length must be greater than 0. The test is `< 0`, so a zero length is accepted.
- The message for a parameterised `main` (src/p3-analysis.c:441) speaks of the line of the main method. It is formatted with the line of the program node.
