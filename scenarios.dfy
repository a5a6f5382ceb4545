/**
 * Small Decaf fragments and what the analysis reports for them. Each one
 * pins down a behaviour of the callbacks as registered, including the
 * ones a reader of the diagnostics' wording would not expect.
 */
module AnalysisScenarios {
  import opened DecafAst
  import opened AnalysisRules
  import opened AnalysisSpec

  const IntA := Symbol("a", Int, 1, [])

  /** A scope where only `a` (an int scalar) and a parameterless `void main` resolve. */
  function Lookup(id: NodeId, name: string): Option<Symbol> {
    if name == "a" then Some(IntA)
    else if name == "main" then Some(Symbol("main", Void, 1, []))
    else None
  }

  const Scope := Env(Lookup, (id: NodeId) => 0)

  /** Inside `void main()` with no loop entered yet. */
  const InMain := Initial.(currentFunc := Some("main"), currTable := Some(SymbolTable([])))

  /** `-1`: the negation's node is typed BOOL, so a correct negation of an int is reported. */
  lemma NegationOfIntReported()
    ensures WalkExpr(Scope, Initial, UnaryOpExpr(1, 3, Neg, Literal(2, 3, Int, 1))).errors
            == [InvalidUnaryOp(3, Neg, Bool, Int)]
  {
  }

  /** `!true` passes: the logical negation is typed BOOL like its operand. */
  lemma NotOfBoolAccepted()
    ensures WalkExpr(Scope, Initial, UnaryOpExpr(1, 3, Not, Literal(2, 3, Bool, 1))).errors == []
  {
  }

  /** `int a; int a;` on lines 2 and 3: both declarations are reported, not only the second. */
  lemma BothDuplicatesReported()
    ensures var table := SymbolTable([IntA, IntA]);
            var ds := [VarDecl(1, 2, "a", Int, false, 1), VarDecl(2, 3, "a", Int, false, 1)];
            WalkVarDecls(Scope, Initial.(currTable := Some(table)), ds).errors
            == [DuplicateSymbol("a", 2), DuplicateSymbol("a", 3)]
  {
    var table := SymbolTable([IntA, IntA]);
    var ds := [VarDecl(1, 2, "a", Int, false, 1), VarDecl(2, 3, "a", Int, false, 1)];
    var s0 := Initial.(currTable := Some(table));
    assert DeclaredTwice(table.localSymbols, "a") by {
      assert table.localSymbols[0].name == "a" && table.localSymbols[1].name == "a";
    }
    var s1 := WalkVarDecl(Scope, s0, ds[0]);
    assert s1.errors == [DuplicateSymbol("a", 2)];
    var s2 := WalkVarDecl(Scope, s1, ds[1]);
    assert s2.errors == [DuplicateSymbol("a", 2), DuplicateSymbol("a", 3)];
    assert ds[1..][1..] == [];
  }

  /** `int a; int a;` on one line (line 2): two identical reports, one per declaration. */
  lemma SameLineDuplicatesReportedTwice()
    ensures var table := SymbolTable([IntA, IntA]);
            var ds := [VarDecl(1, 2, "a", Int, false, 1), VarDecl(2, 2, "a", Int, false, 1)];
            WalkVarDecls(Scope, Initial.(currTable := Some(table)), ds).errors
            == [DuplicateSymbol("a", 2), DuplicateSymbol("a", 2)]
  {
    var table := SymbolTable([IntA, IntA]);
    var ds := [VarDecl(1, 2, "a", Int, false, 1), VarDecl(2, 2, "a", Int, false, 1)];
    var s0 := Initial.(currTable := Some(table));
    assert DeclaredTwice(table.localSymbols, "a") by {
      assert table.localSymbols[0].name == "a" && table.localSymbols[1].name == "a";
    }
    var s1 := WalkVarDecl(Scope, s0, ds[0]);
    assert s1.errors == [DuplicateSymbol("a", 2)];
    var s2 := WalkVarDecl(Scope, s1, ds[1]);
    assert s2.errors == [DuplicateSymbol("a", 2), DuplicateSymbol("a", 2)];
    assert ds[1..][1..] == [];
  }

  /** `int a[0];` is accepted and `int a[-1];` is not: the length check is "below zero". */
  lemma ZeroLengthArrayAccepted()
    ensures VarDeclDiags(VarDecl(1, 2, "a", Int, true, 0)) == []
    ensures VarDeclDiags(VarDecl(1, 2, "a", Int, true, -1)) == [InvalidArrayDeclaration(-1)]
  {
  }

  /** `while (1) { }`: the loop's condition is never checked against BOOL. */
  lemma WhileConditionNotChecked()
    ensures var loop := WhileLoop(1, 4, Literal(2, 4, Int, 1), Block(3, 4, SymbolTable([]), [], []));
            WalkStmt(Scope, InMain, loop).errors == []
  {
  }

  /** `while (true) { } break;`: the break after the loop is not reported. */
  lemma BreakAfterLoopAccepted()
    ensures var loop := WhileLoop(1, 4, Literal(2, 4, Bool, 1), Block(3, 4, SymbolTable([]), [], []));
            WalkStmts(Scope, InMain, [loop, Break(4, 5)]).errors == []
  {
    var loop := WhileLoop(1, 4, Literal(2, 4, Bool, 1), Block(3, 4, SymbolTable([]), [], []));
    var s1 := WalkStmt(Scope, InMain, loop);
    assert s1.inWhile && s1.errors == [];
    var s2 := WalkStmt(Scope, s1, Break(4, 5));
    assert s2.errors == [];
    assert [loop, Break(4, 5)][1..] == [Break(4, 5)];
    assert WalkStmts(Scope, s1, [Break(4, 5)]) == WalkStmts(Scope, s2, []);
  }

  /** `break;` with no loop before it in the traversal is reported on its line. */
  lemma BreakOutsideLoopReported()
    ensures WalkStmts(Scope, InMain, [Break(4, 5)]).errors == [InvalidBreak(5)]
  {
  }

  /** `return 1;` inside `void main()` is a mismatch between VOID and INT. */
  lemma ReturnValueFromVoidReported()
    ensures WalkStmt(Scope, InMain, Return(1, 6, Some(Literal(2, 6, Int, 1)))).errors
            == [ReturnMismatch(6, Void, Int)]
  {
  }

  /** `a = true;` assigns a BOOL to an INT location. */
  lemma AssignmentMismatchReported()
    ensures WalkStmt(Scope, InMain, Assignment(1, 7, Location(2, 7, "a", None), Literal(3, 7, Bool, 1))).errors
            == [AssignmentMismatch(7, "a", Int, Bool)]
  {
  }

  /** `b = 1;` with `b` undeclared: the location is reported undefined and typed VOID, a second mismatch. */
  lemma UndefinedLocationReported()
    ensures WalkStmt(Scope, InMain, Assignment(1, 8, Location(2, 8, "b", None), Literal(3, 8, Int, 1))).errors
            == [UndefinedSymbol("b", 8), AssignmentMismatch(8, "b", Void, Int)]
  {
  }

  /** An empty program whose `main` resolves with no parameters reports nothing. */
  lemma EmptyProgramWithMainAccepted()
    ensures WalkProgram(Scope, Initial, Program(1, 1, SymbolTable([]), [], [])).errors == []
  {
  }

  /** A program in a scope where `main` does not resolve reports exactly that. */
  lemma ProgramWithoutMainReported()
    ensures WalkProgram(Env((id: NodeId, name: string) => None, (id: NodeId) => 0), Initial,
                        Program(1, 1, SymbolTable([]), [], [])).errors == [NoMain]
  {
  }
}
