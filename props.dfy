/**
 * Properties of whole traversals: which diagnostics a subtree can add,
 * what the never-reset loop flag does to break/continue checking, every
 * declaration of a repeated name being reported, and the program-level
 * main check.
 */
module AnalysisProperties {
  import opened DecafAst
  import opened AnalysisRules
  import opened AnalysisSpec

  /**
   * `ds` holds no whole-program diagnostic and, when `inLoop`, no
   * break/continue diagnostic.
   */
  predicate Quiet(ds: seq<Diag>, inLoop: bool) {
    NoProgramLevel(ds) && (inLoop ==> NoLoopControl(ds))
  }

  lemma QuietChain(a: seq<Diag>, b: seq<Diag>, c: seq<Diag>, inLoop: bool)
    requires a <= b <= c
    requires Quiet(b[|a|..], inLoop) && Quiet(c[|b|..], inLoop)
    ensures Quiet(c[|a|..], inLoop)
  {
    assert c[|a|..] == b[|a|..] + c[|b|..];
  }

  /** An expression adds neither a program-level nor a break/continue diagnostic. */
  lemma {:induction false} ExprQuiet(env: Env, s: State, e: Expr)
    requires SafeExpr(env, e)
    ensures Quiet(WalkExpr(env, s, e).errors[|s.errors|..], true)
    decreases e, 0
  {
    var r := WalkExpr(env, s, e);
    match e
    case LocationExpr(l) => LocationQuiet(env, s, l);
    case Literal(_, _, _, _) =>
      assert r.errors[|s.errors|..] == [];
    case BinaryOpExpr(id, line, op, left, right) =>
      var s1 := s.(types := s.types[id := BinopType(op)]);
      var sl := WalkExpr(env, s1, left);
      var s2 := WalkExpr(env, sl, right);
      var added := BinopDiags(line, op, TypeOf(s2.types, left.Id()), TypeOf(s2.types, right.Id()));
      ExprQuiet(env, s1, left);
      ExprQuiet(env, sl, right);
      QuietChain(s.errors, sl.errors, s2.errors, true);
      assert r.errors == s2.errors + added;
      assert r.errors[|s2.errors|..] == added;
      QuietChain(s.errors, s2.errors, r.errors, true);
    case UnaryOpExpr(id, line, op, child) =>
      var s1 := s.(types := UnopTypes(s.types, id, op));
      var s2 := WalkExpr(env, s1, child);
      var added := UnopDiags(line, op, TypeOf(s2.types, id), TypeOf(s2.types, child.Id()));
      ExprQuiet(env, s1, child);
      assert r.errors == s2.errors + added;
      assert r.errors[|s2.errors|..] == added;
      QuietChain(s.errors, s2.errors, r.errors, true);
    case CallExpr(c) => CallQuiet(env, s, c);
  }

  lemma {:induction false} LocationQuiet(env: Env, s: State, l: Location)
    requires SafeLocation(env, l)
    ensures Quiet(WalkLocation(env, s, l).errors[|s.errors|..], true)
    decreases l, 1
  {
    var sym := env.lookup(l.id, l.name);
    var s1 := s.(types := s.types[l.id := ResolvedType(sym)]);
    var s2 := if l.index.Some? then WalkExpr(env, s1, l.index.value) else s1;
    var index := if l.index.Some? then Some(IndexValue(env, l.index.value)) else None;
    var added := LocationDiags(l.name, l.line, sym, index);
    var r := WalkLocation(env, s, l);
    if l.index.Some? {
      ExprQuiet(env, s1, l.index.value);
    } else {
      assert s2.errors[|s.errors|..] == [];
    }
    assert r.errors == s2.errors + added;
    assert r.errors[|s2.errors|..] == added;
    QuietChain(s.errors, s2.errors, r.errors, true);
  }

  lemma {:induction false} CallQuiet(env: Env, s: State, c: FuncCall)
    requires SafeCall(env, c)
    ensures Quiet(WalkCall(env, s, c).errors[|s.errors|..], true)
    decreases c, 1
  {
    var sym := env.lookup(c.id, c.name);
    var s1 := s.(types := s.types[c.id := ResolvedType(sym)]);
    var s2 := WalkExprs(env, s1, c.arguments);
    var added := ArgumentDiags(c.line, sym.value, TypeOf(s2.types, c.arguments[0].Id()));
    var r := WalkCall(env, s, c);
    ExprsQuiet(env, s1, c.arguments);
    assert r.errors == s2.errors + added;
    assert r.errors[|s2.errors|..] == added;
    QuietChain(s.errors, s2.errors, r.errors, true);
  }

  lemma {:induction false} ExprsQuiet(env: Env, s: State, es: seq<Expr>)
    requires forall e | e in es :: SafeExpr(env, e)
    ensures Quiet(WalkExprs(env, s, es).errors[|s.errors|..], true)
    decreases es
  {
    if es == [] {
      assert s.errors[|s.errors|..] == [];
    } else {
      var s1 := WalkExpr(env, s, es[0]);
      ExprQuiet(env, s, es[0]);
      ExprsQuiet(env, s1, es[1..]);
      QuietChain(s.errors, s1.errors, WalkExprs(env, s, es).errors, true);
    }
  }

  /** Declarations add neither a program-level nor a break/continue diagnostic. */
  lemma {:induction false} VarDeclsQuiet(env: Env, s: State, ds: seq<VarDecl>)
    requires s.currTable.Some?
    ensures Quiet(WalkVarDecls(env, s, ds).errors[|s.errors|..], true)
    decreases ds
  {
    if ds == [] {
      assert s.errors[|s.errors|..] == [];
    } else {
      var s1 := WalkVarDecl(env, s, ds[0]);
      var added := VarDeclDiags(ds[0]) + DuplicateDiags(s.currTable.value, ds[0].name, ds[0].line);
      DeclarationDiagKinds(ds[0], s.currTable.value);
      assert s1.errors[|s.errors|..] == added;
      VarDeclsQuiet(env, s1, ds[1..]);
      QuietChain(s.errors, s1.errors, WalkVarDecls(env, s, ds).errors, true);
    }
  }

  /** A statement adds no program-level diagnostic, and none about break/continue when walked inside a loop. */
  lemma {:induction false} StmtQuiet(env: Env, s: State, st: Stmt)
    requires s.currentFunc.Some? && SafeStmt(env, st)
    ensures var r := WalkStmt(env, s, st); Quiet(r.errors[|s.errors|..], s.inWhile)
    decreases st, 1
  {
    match st
    case Assignment(_, _, _, _) => AssignmentQuiet(env, s, st);
    case CallStmt(c) => CallQuiet(env, s, c);
    case Conditional(_, _, _, _, _) => ConditionalQuiet(env, s, st);
    case WhileLoop(_, _, _, _) => WhileQuiet(env, s, st);
    case Return(_, _, _) => ReturnQuiet(env, s, st);
    case Break(_, _) =>
    case Continue(_, _) =>
  }

  lemma AssignmentQuiet(env: Env, s: State, st: Stmt)
    requires s.currentFunc.Some? && SafeStmt(env, st) && st.Assignment?
    ensures var r := WalkStmt(env, s, st); Quiet(r.errors[|s.errors|..], s.inWhile)
  {
    var s1 := WalkLocation(env, s, st.location);
    var s2 := WalkExpr(env, s1, st.value);
    var r := WalkStmt(env, s, st);
    LocationQuiet(env, s, st.location);
    ExprQuiet(env, s1, st.value);
    assert r.errors == s2.errors + AssignmentDiags(st.line, st.location.name, TypeOf(s2.types, st.location.id),
                                                   TypeOf(s2.types, st.value.Id()));
    QuietChain(s.errors, s1.errors, s2.errors, s.inWhile);
    QuietChain(s.errors, s2.errors, r.errors, s.inWhile);
  }

  lemma {:induction false} ConditionalQuiet(env: Env, s: State, st: Stmt)
    requires s.currentFunc.Some? && SafeStmt(env, st) && st.Conditional?
    ensures var r := WalkStmt(env, s, st); Quiet(r.errors[|s.errors|..], s.inWhile)
    decreases st, 0
  {
    var s0 := s.(types := s.types[st.id := Bool]);
    var s1 := WalkExpr(env, s0, st.condition);
    var s2 := WalkBlock(env, s1, st.ifBlock);
    var s3 := if st.elseBlock.Some? then WalkBlock(env, s2, st.elseBlock.value) else s2;
    var added := ConditionDiags(st.line, TypeOf(s3.types, st.id), TypeOf(s3.types, st.condition.Id()));
    var r := WalkStmt(env, s, st);
    assert r.errors == s3.errors + added;
    ExprQuiet(env, s0, st.condition);
    BlockQuiet(env, s1, st.ifBlock);
    QuietChain(s.errors, s1.errors, s2.errors, s.inWhile);
    if st.elseBlock.Some? {
      BlockQuiet(env, s2, st.elseBlock.value);
      QuietChain(s.errors, s2.errors, s3.errors, s.inWhile);
    }
    assert r.errors[|s3.errors|..] == added;
    QuietChain(s.errors, s3.errors, r.errors, s.inWhile);
  }

  lemma {:induction false} WhileQuiet(env: Env, s: State, st: Stmt)
    requires s.currentFunc.Some? && SafeStmt(env, st) && st.WhileLoop?
    ensures var r := WalkStmt(env, s, st); Quiet(r.errors[|s.errors|..], true)
    decreases st, 0
  {
    var s1 := WalkExpr(env, s.(inWhile := true, types := s.types[st.id := Bool]), st.condition);
    ExprQuiet(env, s.(inWhile := true, types := s.types[st.id := Bool]), st.condition);
    assert WalkStmt(env, s, st) == WalkBlock(env, s1, st.body);
    BlockQuiet(env, s1, st.body);
    QuietChain(s.errors, s1.errors, WalkStmt(env, s, st).errors, true);
  }

  lemma ReturnQuiet(env: Env, s: State, st: Stmt)
    requires s.currentFunc.Some? && SafeStmt(env, st) && st.Return?
    ensures var r := WalkStmt(env, s, st); Quiet(r.errors[|s.errors|..], s.inWhile)
  {
    var s1 := s.(types := s.types[st.id := ResolvedType(env.lookup(st.id, s.currentFunc.value))]);
    var s2 := if st.returnValue.Some? then WalkExpr(env, s1, st.returnValue.value) else s1;
    var r := WalkStmt(env, s, st);
    var valueType := if st.returnValue.Some? then Some(TypeOf(s2.types, st.returnValue.value.Id())) else None;
    assert r.errors == s2.errors + ReturnDiags(st.line, TypeOf(s2.types, st.id), valueType);
    if st.returnValue.Some? {
      ExprQuiet(env, s1, st.returnValue.value);
    } else {
      assert s2.errors[|s.errors|..] == [];
    }
    QuietChain(s.errors, s2.errors, r.errors, s.inWhile);
  }

  lemma {:induction false} BlockQuiet(env: Env, s: State, b: Block)
    requires s.currentFunc.Some? && SafeBlock(env, b)
    ensures var r := WalkBlock(env, s, b); Quiet(r.errors[|s.errors|..], s.inWhile)
    decreases b, 1
  {
    var s1 := WalkVarDecls(env, s.(currTable := Some(b.table)), b.variables);
    VarDeclsQuiet(env, s.(currTable := Some(b.table)), b.variables);
    StmtsQuiet(env, s1, b.statements);
    QuietChain(s.errors, s1.errors, WalkBlock(env, s, b).errors, s.inWhile);
  }

  lemma {:induction false} StmtsQuiet(env: Env, s: State, ss: seq<Stmt>)
    requires s.currentFunc.Some? && forall st | st in ss :: SafeStmt(env, st)
    ensures var r := WalkStmts(env, s, ss); Quiet(r.errors[|s.errors|..], s.inWhile)
    decreases ss
  {
    if ss != [] {
      var s1 := WalkStmt(env, s, ss[0]);
      StmtQuiet(env, s, ss[0]);
      StmtsQuiet(env, s1, ss[1..]);
      QuietChain(s.errors, s1.errors, WalkStmts(env, s, ss).errors, s.inWhile);
    }
  }

  /** A function declaration adds no program-level diagnostic, nor any break/continue one when the flag was set. */
  lemma FuncDeclQuiet(env: Env, s: State, f: FuncDecl)
    requires s.currTable.Some? && SafeBlock(env, f.body)
    ensures Quiet(WalkFuncDecl(env, s, f).errors[|s.errors|..], s.inWhile)
  {
    var s1 := s.(currentFunc := Some(f.name), types := s.types[f.id := f.returnType]);
    var dup := DuplicateDiags(s1.currTable.value, f.name, f.line);
    var s2 := s1.(errors := s1.errors + dup);
    var s3 := WalkBlock(env, s2.(currTable := Some(f.table)), f.body);
    assert WalkFuncDecl(env, s, f).errors == s3.errors;
    BlockQuiet(env, s2.(currTable := Some(f.table)), f.body);
    assert s2.errors[|s.errors|..] == dup;
    QuietChain(s.errors, s2.errors, s3.errors, s.inWhile);
  }

  lemma {:induction false} FuncDeclsQuiet(env: Env, s: State, fs: seq<FuncDecl>)
    requires s.currTable.Some? && s.programTable.Some?
    requires forall f | f in fs :: SafeBlock(env, f.body)
    ensures var r := WalkFuncDecls(env, s, fs); Quiet(r.errors[|s.errors|..], s.inWhile)
    decreases fs
  {
    if fs == [] {
      assert s.errors[|s.errors|..] == [];
    } else {
      var s1 := WalkFuncDecl(env, s, fs[0]);
      FuncDeclQuiet(env, s, fs[0]);
      FuncDeclsQuiet(env, s1, fs[1..]);
      QuietChain(s.errors, s1.errors, WalkFuncDecls(env, s, fs).errors, s.inWhile);
    }
  }

  /** A break or continue walked inside a while loop's body is never reported. */
  lemma LoopBodyNeverReportsLoopControl(env: Env, s: State, st: Stmt)
    requires s.currentFunc.Some? && SafeStmt(env, st) && st.WhileLoop?
    ensures NoLoopControl(WalkStmt(env, s, st).errors[|s.errors|..])
  {
    WhileQuiet(env, s, st);
  }

  /** A break or continue outside every loop is reported, on its own line. */
  lemma LoopControlOutsideLoopReported(env: Env, s: State, st: Stmt)
    requires s.currentFunc.Some? && !s.inWhile && (st.Break? || st.Continue?)
    ensures WalkStmt(env, s, st).errors
            == s.errors + [if st.Break? then InvalidBreak(st.line) else InvalidContinue(st.line)]
  {
  }

  lemma {:induction false} WalkStmtsAppend(env: Env, s: State, a: seq<Stmt>, b: seq<Stmt>)
    requires s.currentFunc.Some?
    requires forall st | st in a + b :: SafeStmt(env, st)
    ensures WalkStmts(env, s, a + b) == WalkStmts(env, WalkStmts(env, s, a), b)
    decreases a
  {
    if a == [] {
      assert a + b == b;
    } else {
      assert (a + b)[0] == a[0] && (a + b)[1..] == a[1..] + b;
      assert forall st | st in a[1..] + b :: st in a + b;
      WalkStmtsAppend(env, WalkStmt(env, s, a[0]), a[1..], b);
    }
  }

  /**
   * The in-while flag is set by a loop and never cleared: once a statement
   * sequence has walked a while loop, no later break or continue in the
   * rest of the sequence is reported, even outside that loop.
   */
  lemma LoopFlagOutlivesLoop(env: Env, s: State, before: seq<Stmt>, after: seq<Stmt>)
    requires s.currentFunc.Some?
    requires forall st | st in before + after :: SafeStmt(env, st)
    requires StmtsHaveLoop(before)
    ensures var mid := WalkStmts(env, s, before);
            var full := WalkStmts(env, s, before + after);
            mid.inWhile && mid.errors <= full.errors && NoLoopControl(full.errors[|mid.errors|..])
  {
    assert forall st | st in before :: st in before + after;
    assert forall st | st in after :: st in before + after;
    var mid := WalkStmts(env, s, before);
    WalkStmtsAppend(env, s, before, after);
    StmtsQuiet(env, mid, after);
  }

  lemma {:induction false} WalkFuncDeclsAppend(env: Env, s: State, a: seq<FuncDecl>, b: seq<FuncDecl>)
    requires s.currTable.Some? && s.programTable.Some?
    requires forall f | f in a + b :: SafeBlock(env, f.body)
    ensures WalkFuncDecls(env, s, a + b) == WalkFuncDecls(env, WalkFuncDecls(env, s, a), b)
    decreases a
  {
    if a == [] {
      assert a + b == b;
    } else {
      assert (a + b)[0] == a[0] && (a + b)[1..] == a[1..] + b;
      assert forall f | f in a[1..] + b :: f in a + b;
      WalkFuncDeclsAppend(env, WalkFuncDecl(env, s, a[0]), a[1..], b);
    }
  }

  /**
   * The flag even outlives the function: after a function whose body has
   * a loop, no break or continue in any later function is reported.
   */
  lemma LoopFlagOutlivesFunction(env: Env, s: State, before: seq<FuncDecl>, after: seq<FuncDecl>)
    requires s.currTable.Some? && s.programTable.Some?
    requires forall f | f in before + after :: SafeBlock(env, f.body)
    requires FuncsHaveLoop(before)
    ensures var mid := WalkFuncDecls(env, s, before);
            var full := WalkFuncDecls(env, s, before + after);
            mid.inWhile && mid.errors <= full.errors && NoLoopControl(full.errors[|mid.errors|..])
  {
    assert forall f | f in before :: f in before + after;
    assert forall f | f in after :: f in before + after;
    var mid := WalkFuncDecls(env, s, before);
    WalkFuncDeclsAppend(env, s, before, after);
    FuncDeclsQuiet(env, mid, after);
  }

  /** What one declaration adds: its own diagnostics, then at most its duplicate report. */
  lemma VarDeclAdds(d: VarDecl, table: SymbolTable)
    ensures var added := VarDeclDiags(d) + DuplicateDiags(table, d.name, d.line);
            (DuplicateSymbol(d.name, d.line) in added <==> DeclaredTwice(table.localSymbols, d.name))
            && forall x | x in added && x.DuplicateSymbol? :: x == DuplicateSymbol(d.name, d.line)
  {
    var own := VarDeclDiags(d);
    var dup := DuplicateDiags(table, d.name, d.line);
    assert forall x | x in own :: !x.DuplicateSymbol?;
    if DeclaredTwice(table.localSymbols, d.name) {
      assert dup == [DuplicateSymbol(d.name, d.line)];
    } else {
      assert dup == [];
    }
  }

  /** A declaration list adds the first declaration's diagnostics, then what the rest of the list adds. */
  lemma VarDeclsAdded(env: Env, s: State, ds: seq<VarDecl>)
    requires s.currTable.Some? && ds != []
    ensures var s1 := WalkVarDecl(env, s, ds[0]);
            WalkVarDecls(env, s, ds).errors[|s.errors|..]
            == VarDeclDiags(ds[0]) + DuplicateDiags(s.currTable.value, ds[0].name, ds[0].line)
               + WalkVarDecls(env, s1, ds[1..]).errors[|s1.errors|..]
  {
    var s1 := WalkVarDecl(env, s, ds[0]);
    var r := WalkVarDecls(env, s1, ds[1..]);
    assert WalkVarDecls(env, s, ds) == r;
    var first := VarDeclDiags(ds[0]) + DuplicateDiags(s.currTable.value, ds[0].name, ds[0].line);
    var k := |s1.errors|;
    var rest := r.errors[k..];
    assert r.errors[..k] == s1.errors;
    SliceAfterPrefix(s.errors, first, r.errors);
  }

  /** Dropping `a` from a sequence that starts with `a + b` leaves `b` followed by the rest. */
  lemma SliceAfterPrefix(a: seq<Diag>, b: seq<Diag>, c: seq<Diag>)
    requires a + b <= c
    ensures c[|a|..] == b + c[|a + b|..]
  {
    assert c == (a + b) + c[|a + b|..];
  }

  /** Every declaration in `ds` of a name `syms` declares twice has its duplicate report in `added`. */
  predicate RepeatsReported(added: seq<Diag>, ds: seq<VarDecl>, syms: seq<Symbol>) {
    forall i | 0 <= i < |ds| && DeclaredTwice(syms, ds[i].name) :: DuplicateSymbol(ds[i].name, ds[i].line) in added
  }

  lemma RepeatsReportedStep(ds: seq<VarDecl>, table: SymbolTable, rest: seq<Diag>)
    requires ds != []
    requires RepeatsReported(rest, ds[1..], table.localSymbols)
    ensures RepeatsReported(VarDeclDiags(ds[0]) + DuplicateDiags(table, ds[0].name, ds[0].line) + rest,
                            ds, table.localSymbols)
  {
    var first := VarDeclDiags(ds[0]) + DuplicateDiags(table, ds[0].name, ds[0].line);
    VarDeclAdds(ds[0], table);
    forall i | 0 <= i < |ds| && DeclaredTwice(table.localSymbols, ds[i].name)
      ensures DuplicateSymbol(ds[i].name, ds[i].line) in first + rest
    {
      if i == 0 {
        assert DuplicateSymbol(ds[0].name, ds[0].line) in first;
      } else {
        assert ds[i] == ds[1..][i - 1];
        assert DuplicateSymbol(ds[i].name, ds[i].line) in rest;
      }
    }
  }

  /**
   * Every declaration of a name its scope declares twice is reported, on
   * its own line.
   */
  lemma {:induction false} EveryRepeatedDeclarationReported(env: Env, s: State, ds: seq<VarDecl>)
    requires s.currTable.Some?
    ensures RepeatsReported(WalkVarDecls(env, s, ds).errors[|s.errors|..], ds, s.currTable.value.localSymbols)
    decreases ds
  {
    if ds != [] {
      var s1 := WalkVarDecl(env, s, ds[0]);
      VarDeclsAdded(env, s, ds);
      EveryRepeatedDeclarationReported(env, s1, ds[1..]);
      RepeatsReportedStep(ds, s.currTable.value, WalkVarDecls(env, s1, ds[1..]).errors[|s1.errors|..]);
    }
  }

  /** Every duplicate report in `added` names a declaration of `ds`, on its line, of a name `syms` declares twice. */
  predicate DuplicatesJustified(added: seq<Diag>, ds: seq<VarDecl>, syms: seq<Symbol>) {
    forall x | x in added && x.DuplicateSymbol? ::
      exists i :: 0 <= i < |ds| && x == DuplicateSymbol(ds[i].name, ds[i].line) && DeclaredTwice(syms, ds[i].name)
  }

  lemma DuplicatesJustifiedStep(ds: seq<VarDecl>, table: SymbolTable, rest: seq<Diag>)
    requires ds != []
    requires DuplicatesJustified(rest, ds[1..], table.localSymbols)
    ensures DuplicatesJustified(VarDeclDiags(ds[0]) + DuplicateDiags(table, ds[0].name, ds[0].line) + rest,
                                ds, table.localSymbols)
  {
    var t := table.localSymbols;
    var first := VarDeclDiags(ds[0]) + DuplicateDiags(table, ds[0].name, ds[0].line);
    VarDeclAdds(ds[0], table);
    forall x: Diag | x in first + rest && x.DuplicateSymbol?
      ensures exists i :: 0 <= i < |ds| && x == DuplicateSymbol(ds[i].name, ds[i].line) && DeclaredTwice(t, ds[i].name)
    {
      if x in first {
        assert x == DuplicateSymbol(ds[0].name, ds[0].line) && DeclaredTwice(t, ds[0].name);
      } else {
        var i :| 0 <= i < |ds[1..]| && x == DuplicateSymbol(ds[1..][i].name, ds[1..][i].line)
                 && DeclaredTwice(t, ds[1..][i].name);
        assert ds[1..][i] == ds[i + 1];
      }
    }
  }

  /** Conversely, every duplicate report names a declaration, on its line, of a name declared twice. */
  lemma {:induction false} OnlyRepeatedDeclarationsReported(env: Env, s: State, ds: seq<VarDecl>)
    requires s.currTable.Some?
    ensures DuplicatesJustified(WalkVarDecls(env, s, ds).errors[|s.errors|..], ds, s.currTable.value.localSymbols)
    decreases ds
  {
    if ds != [] {
      var s1 := WalkVarDecl(env, s, ds[0]);
      VarDeclsAdded(env, s, ds);
      OnlyRepeatedDeclarationsReported(env, s1, ds[1..]);
      DuplicatesJustifiedStep(ds, s.currTable.value, WalkVarDecls(env, s1, ds[1..]).errors[|s1.errors|..]);
    }
  }

  /** The duplicate reports among `ds`, in their order. */
  function DuplicateReports(ds: seq<Diag>): seq<Diag> {
    if ds == [] then []
    else (if ds[0].DuplicateSymbol? then [ds[0]] else []) + DuplicateReports(ds[1..])
  }

  /** One duplicate report per declaration in `ds` of a name `syms` declares twice, in declaration order. */
  function RepeatedDeclarations(ds: seq<VarDecl>, syms: seq<Symbol>): seq<Diag> {
    if ds == [] then []
    else (if DeclaredTwice(syms, ds[0].name) then [DuplicateSymbol(ds[0].name, ds[0].line)] else [])
         + RepeatedDeclarations(ds[1..], syms)
  }

  lemma {:induction false} DuplicateReportsAppend(a: seq<Diag>, b: seq<Diag>)
    ensures DuplicateReports(a + b) == DuplicateReports(a) + DuplicateReports(b)
    decreases a
  {
    if a != [] {
      assert (a + b)[0] == a[0] && (a + b)[1..] == a[1..] + b;
      DuplicateReportsAppend(a[1..], b);
    } else {
      assert a + b == b;
    }
  }

  lemma {:induction false} NoDuplicateReports(a: seq<Diag>)
    requires forall x | x in a :: !x.DuplicateSymbol?
    ensures DuplicateReports(a) == []
    decreases a
  {
    if a != [] {
      assert forall x | x in a[1..] :: x in a;
      NoDuplicateReports(a[1..]);
    }
  }

  /** One declaration's diagnostics contribute its duplicate report, if any, ahead of what follows. */
  lemma DuplicateReportsStep(d: VarDecl, table: SymbolTable, rest: seq<Diag>)
    ensures DuplicateReports(VarDeclDiags(d) + DuplicateDiags(table, d.name, d.line) + rest)
            == (if DeclaredTwice(table.localSymbols, d.name) then [DuplicateSymbol(d.name, d.line)] else [])
               + DuplicateReports(rest)
  {
    var own := VarDeclDiags(d);
    var dup := DuplicateDiags(table, d.name, d.line);
    DuplicateReportsAppend(own + dup, rest);
    DuplicateReportsAppend(own, dup);
    NoDuplicateReports(own);
    assert DuplicateReports(dup) == dup by {
      if dup != [] {
        assert dup[1..] == [];
      }
    }
  }

  /**
   * The duplicate reports a declaration list adds are exactly one per
   * declaration of a name its scope declares twice, in declaration order:
   * n declarations of such a name give n reports, even on one line.
   */
  lemma {:induction false} DuplicateReportsCounted(env: Env, s: State, ds: seq<VarDecl>)
    requires s.currTable.Some?
    ensures DuplicateReports(WalkVarDecls(env, s, ds).errors[|s.errors|..])
            == RepeatedDeclarations(ds, s.currTable.value.localSymbols)
    decreases ds
  {
    if ds == [] {
      assert WalkVarDecls(env, s, ds).errors[|s.errors|..] == [];
    } else {
      var s1 := WalkVarDecl(env, s, ds[0]);
      VarDeclsAdded(env, s, ds);
      DuplicateReportsCounted(env, s1, ds[1..]);
      DuplicateReportsStep(ds[0], s.currTable.value, WalkVarDecls(env, s1, ds[1..]).errors[|s1.errors|..]);
    }
  }

  /**
   * From a fresh analysis, a program without `main` gets exactly one "no
   * main" diagnostic, and one whose `main` has parameters exactly one
   * parameters diagnostic (and no "no main").
   */
  lemma MainReportedOnce(env: Env, p: Program)
    requires SafeProgram(env, p)
    ensures var errs := WalkProgram(env, Initial, p).errors;
            var main := env.lookup(p.id, "main");
            multiset(errs)[NoMain] == (if main.None? then 1 else 0)
            && multiset(errs)[MainHasParameters(p.line)]
               == (if main.Some? && main.value.parameters != [] then 1 else 0)
  {
    var s1 := Initial.(currTable := Some(p.table), programTable := Some(p.table));
    var s2 := WalkVarDecls(env, s1, p.variables);
    VarDeclsQuiet(env, s1, p.variables);
    var s3 := WalkFuncDecls(env, s2, p.functions);
    FuncDeclsQuiet(env, s2, p.functions);
    QuietChain([], s2.errors, s3.errors, false);
    assert s3.errors[0..] == s3.errors;
    assert NoMain !in s3.errors && MainHasParameters(p.line) !in s3.errors;
    var m := MainDiags(env.lookup(p.id, "main"), p.line);
    assert WalkProgram(env, Initial, p).errors == s3.errors + m;
    assert multiset(s3.errors + m) == multiset(s3.errors) + multiset(m);
  }
}
