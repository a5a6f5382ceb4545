/**
 * The analysis visitor: its data (current function, in-while flag, current
 * and program symbol tables), the error list and the per-node "type"
 * attributes as fields of one object, one method per callback that
 * `analyze` registers, the traversal that dispatches to them, and
 * `analyze` itself.
 */
module Analysis {
  import opened DecafAst
  import opened AnalysisRules
  import opened AnalysisSpec

  class Analyzer {
    const env: Env
    var errors: seq<Diag>
    var currentFunc: Option<string>
    var inWhile: bool
    var currTable: Option<SymbolTable>
    var programTable: Option<SymbolTable>
    var types: map<NodeId, DecafType>

    function State(): State
      reads this
    {
      AnalysisSpec.State(errors, currentFunc, inWhile, currTable, programTable, types)
    }

    /** A fresh analysis: no errors, no current function, not in a loop, no tables. */
    constructor (env: Env)
      ensures this.env == env && State() == Initial
    {
      this.env := env;
      errors := [];
      currentFunc := None;
      inWhile := false;
      currTable := None;
      programTable := None;
      types := map[];
    }

    /** Appends one diagnostic to the error list. */
    method Report(d: Diag)
      modifies this`errors
      ensures errors == old(errors) + [d]
    {
      errors := errors + [d];
    }

    /** Looks `name` up from node `id` and reports it undefined when the lookup fails. */
    method LookupSymbolWithReporting(id: NodeId, line: int, name: string) returns (sym: Option<Symbol>)
      modifies this`errors
      ensures sym == env.lookup(id, name)
      ensures errors == old(errors) + (if sym.None? then [UndefinedSymbol(name, line)] else [])
    {
      sym := env.lookup(id, name);
      if sym.None? {
        Report(UndefinedSymbol(name, line));
      }
    }

    /**
     * Reports the declaration of `name` on `line` when the current scope
     * declares that name more than once. The scope itself is only read.
     */
    method CheckForDuplicates(name: string, line: int)
      requires currTable.Some?
      modifies this`errors
      ensures errors == old(errors) + DuplicateDiags(currTable.value, name, line)
    {
      var dup := CountMatching(currTable.value.localSymbols, name);
      if dup > 1 {
        Report(DuplicateSymbol(name, line));
      }
    }

    // ----- pre-visit callbacks -----

    method PreProgram(p: Program)
      modifies this`currTable, this`programTable
      ensures currTable == Some(p.table) && programTable == Some(p.table)
    {
      currTable := Some(p.table);
      programTable := Some(p.table);
    }

    method PreBlock(b: Block)
      modifies this`currTable
      ensures currTable == Some(b.table)
    {
      currTable := Some(b.table);
    }

    method PreVarDecl(d: VarDecl)
      modifies this`errors, this`types
      ensures errors == old(errors) + VarDeclDiags(d)
      ensures types == old(types)[d.id := d.declType]
    {
      errors := errors + VarDeclDiags(d);
      types := types[d.id := d.declType];
    }

    method PreFuncDecl(f: FuncDecl)
      requires currTable.Some?
      modifies this`currentFunc, this`types, this`errors, this`currTable
      ensures currentFunc == Some(f.name)
      ensures types == old(types)[f.id := f.returnType]
      ensures errors == old(errors) + DuplicateDiags(old(currTable).value, f.name, f.line)
      ensures currTable == Some(f.table)
    {
      currentFunc := Some(f.name);
      types := types[f.id := f.returnType];
      CheckForDuplicates(f.name, f.line);
      currTable := Some(f.table);
    }

    method PreLocation(l: Location)
      modifies this`types
      ensures types == old(types)[l.id := ResolvedType(env.lookup(l.id, l.name))]
    {
      var loc := env.lookup(l.id, l.name);
      if loc.None? {
        types := types[l.id := Void];
      } else {
        types := types[l.id := loc.value.symType];
      }
    }

    method PreConditional(id: NodeId)
      modifies this`types
      ensures types == old(types)[id := Bool]
    {
      types := types[id := Bool];
    }

    method PreWhile(id: NodeId)
      modifies this`inWhile, this`types
      ensures inWhile
      ensures types == old(types)[id := Bool]
    {
      inWhile := true;
      types := types[id := Bool];
    }

    method PreReturn(id: NodeId)
      requires currentFunc.Some?
      modifies this`types
      ensures types == old(types)[id := ResolvedType(env.lookup(id, currentFunc.value))]
    {
      var func := env.lookup(id, currentFunc.value);
      if func.None? {
        types := types[id := Void];
      } else {
        types := types[id := func.value.symType];
      }
    }

    method CheckBreak(line: int)
      modifies this`errors
      ensures errors == old(errors) + if inWhile then [] else [InvalidBreak(line)]
    {
      if !inWhile {
        Report(InvalidBreak(line));
      }
    }

    method CheckContinue(line: int)
      modifies this`errors
      ensures errors == old(errors) + if inWhile then [] else [InvalidContinue(line)]
    {
      if !inWhile {
        Report(InvalidContinue(line));
      }
    }

    method PreBinop(id: NodeId, op: BinaryOp)
      modifies this`types
      ensures types == old(types)[id := BinopType(op)]
    {
      types := types[id := BinopType(op)];
    }

    /** The switch falls through from NEGOP into NOTOP: the BOOL written last stays. */
    method PreUnop(id: NodeId, op: UnaryOp)
      modifies this`types
      ensures types == UnopTypes(old(types), id, op)
    {
      if op == Neg {
        types := types[id := Int];
      }
      types := types[id := Bool];
    }

    method PreFuncCall(c: FuncCall)
      modifies this`types
      ensures types == old(types)[c.id := ResolvedType(env.lookup(c.id, c.name))]
    {
      var func := env.lookup(c.id, c.name);
      if func.None? {
        types := types[c.id := Void];
      } else {
        types := types[c.id := func.value.symType];
      }
    }

    method PreLiteral(id: NodeId, litType: DecafType)
      modifies this`types
      ensures types == old(types)[id := litType]
    {
      types := types[id := litType];
    }

    // ----- post-visit callbacks -----

    method PostVarDecl(d: VarDecl)
      requires currTable.Some?
      modifies this`errors
      ensures errors == old(errors) + DuplicateDiags(currTable.value, d.name, d.line)
    {
      CheckForDuplicates(d.name, d.line);
    }

    /** Reads the index node's literal field, whatever kind of node it is. */
    method PostLocation(l: Location)
      requires l.index.Some? ==> env.lookup(l.id, l.name).Some?
      modifies this`errors
      ensures errors == old(errors) + LocationDiags(l.name, l.line, env.lookup(l.id, l.name),
                                                    if l.index.Some? then Some(IndexValue(env, l.index.value)) else None)
    {
      if l.index.None? {
        var sym1 := env.lookup(l.id, l.name);
        if sym1.None? {
          var _ := LookupSymbolWithReporting(l.id, l.line, l.name);
        } else if sym1.value.length > 1 {
          Report(InvalidArrayAccess(l.line));
        }
      } else {
        var sym := env.lookup(l.id, l.name);
        var i := IndexValue(env, l.index.value);
        if i < 0 {
          Report(NegativeIndex(l.name, i, l.line));
        } else if i >= sym.value.length {
          Report(IndexOutOfBounds(l.name, i, l.line));
        }
      }
    }

    /** Leaves the function: no current function, and the program's table is current again. */
    method PostFuncDecl()
      modifies this`currentFunc, this`currTable
      ensures currentFunc == None && currTable == programTable
    {
      currentFunc := None;
      currTable := programTable;
    }

    method CheckMain(p: Program)
      modifies this`errors
      ensures errors == old(errors) + MainDiags(env.lookup(p.id, "main"), p.line)
    {
      var sym := env.lookup(p.id, "main");
      if sym.None? {
        Report(NoMain);
      }
      if sym.Some? {
        var main := env.lookup(p.id, "main");
        if main.value.parameters != [] {
          Report(MainHasParameters(p.line));
        }
      }
    }

    method PostAssignment(line: int, loc: Location, value: Expr)
      modifies this`errors
      ensures errors == old(errors)
                        + AssignmentDiags(line, loc.name, TypeOf(types, loc.id), TypeOf(types, value.Id()))
    {
      errors := errors + AssignmentDiags(line, loc.name, TypeOf(types, loc.id), TypeOf(types, value.Id()));
    }

    method PostReturn(id: NodeId, line: int, value: Option<Expr>)
      modifies this`errors
      ensures errors == old(errors)
                        + ReturnDiags(line, TypeOf(types, id),
                                      if value.Some? then Some(TypeOf(types, value.value.Id())) else None)
    {
      var valueType := if value.Some? then Some(TypeOf(types, value.value.Id())) else None;
      errors := errors + ReturnDiags(line, TypeOf(types, id), valueType);
    }

    method PostConditional(id: NodeId, line: int, cond: Expr)
      modifies this`errors
      ensures errors == old(errors) + ConditionDiags(line, TypeOf(types, id), TypeOf(types, cond.Id()))
    {
      errors := errors + ConditionDiags(line, TypeOf(types, id), TypeOf(types, cond.Id()));
    }

    method PostBinop(line: int, op: BinaryOp, left: Expr, right: Expr)
      modifies this`errors
      ensures errors == old(errors)
                        + BinopDiags(line, op, TypeOf(types, left.Id()), TypeOf(types, right.Id()))
    {
      errors := errors + BinopDiags(line, op, TypeOf(types, left.Id()), TypeOf(types, right.Id()));
    }

    method PostUnop(id: NodeId, line: int, op: UnaryOp, child: Expr)
      modifies this`errors
      ensures errors == old(errors) + UnopDiags(line, op, TypeOf(types, id), TypeOf(types, child.Id()))
    {
      if TypeOf(types, id) != TypeOf(types, child.Id()) {
        Report(InvalidUnaryOp(line, op, TypeOf(types, id), TypeOf(types, child.Id())));
      }
    }

    /** Defined for leaving a while loop, but `Analyze` never registers it. */
    method PostWhile()
      modifies this`inWhile
      ensures !inWhile
    {
      inWhile := false;
    }

    method PostFuncCall(c: FuncCall)
      requires SafeCall(env, c)
      modifies this`errors
      ensures errors == old(errors)
                        + ArgumentDiags(c.line, env.lookup(c.id, c.name).value, TypeOf(types, c.arguments[0].Id()))
    {
      var func := env.lookup(c.id, c.name);
      if func.value.parameters[0].paramType != TypeOf(types, c.arguments[0].Id()) {
        Report(InvalidArgument(c.line));
      }
    }

    // ----- the traversal -----

    method VisitExpr(e: Expr)
      requires SafeExpr(env, e)
      modifies this
      ensures State() == WalkExpr(env, old(State()), e)
      decreases e, 0
    {
      match e
      case LocationExpr(l) =>
        VisitLocation(l);
      case Literal(id, _, t, _) =>
        PreLiteral(id, t);
      case BinaryOpExpr(id, line, op, left, right) =>
        PreBinop(id, op);
        VisitExpr(left);
        VisitExpr(right);
        PostBinop(line, op, left, right);
      case UnaryOpExpr(id, line, op, child) =>
        PreUnop(id, op);
        VisitExpr(child);
        PostUnop(id, line, op, child);
      case CallExpr(c) =>
        VisitCall(c);
    }

    method VisitLocation(l: Location)
      requires SafeLocation(env, l)
      modifies this
      ensures State() == WalkLocation(env, old(State()), l)
      decreases l, 1
    {
      PreLocation(l);
      if l.index.Some? {
        VisitExpr(l.index.value);
      }
      PostLocation(l);
    }

    method VisitCall(c: FuncCall)
      requires SafeCall(env, c)
      modifies this
      ensures State() == WalkCall(env, old(State()), c)
      decreases c, 1
    {
      PreFuncCall(c);
      VisitExprs(c.arguments);
      PostFuncCall(c);
    }

    method VisitExprs(es: seq<Expr>)
      requires forall e | e in es :: SafeExpr(env, e)
      modifies this
      ensures State() == WalkExprs(env, old(State()), es)
      decreases es
    {
      if es != [] {
        VisitExpr(es[0]);
        VisitExprs(es[1..]);
      }
    }

    method VisitVarDecl(d: VarDecl)
      requires currTable.Some?
      modifies this
      ensures State() == WalkVarDecl(env, old(State()), d)
    {
      PreVarDecl(d);
      PostVarDecl(d);
    }

    method VisitVarDecls(ds: seq<VarDecl>)
      requires currTable.Some?
      modifies this
      ensures State() == WalkVarDecls(env, old(State()), ds)
      decreases ds
    {
      if ds != [] {
        VisitVarDecl(ds[0]);
        VisitVarDecls(ds[1..]);
      }
    }

    method VisitStmt(st: Stmt)
      requires currentFunc.Some?
      requires SafeStmt(env, st)
      modifies this
      ensures State() == WalkStmt(env, old(State()), st)
      decreases st, 0
    {
      match st
      case Assignment(_, line, loc, value) =>
        VisitLocation(loc);
        VisitExpr(value);
        PostAssignment(line, loc, value);
      case CallStmt(c) =>
        VisitCall(c);
      case Conditional(id, line, cond, ifBlock, elseBlock) =>
        PreConditional(id);
        VisitExpr(cond);
        VisitBlock(ifBlock);
        if elseBlock.Some? {
          VisitBlock(elseBlock.value);
        }
        PostConditional(id, line, cond);
      case WhileLoop(id, _, cond, body) =>
        PreWhile(id);
        VisitExpr(cond);
        VisitBlock(body);
      case Return(id, line, value) =>
        PreReturn(id);
        if value.Some? {
          VisitExpr(value.value);
        }
        PostReturn(id, line, value);
      case Break(_, line) =>
        CheckBreak(line);
      case Continue(_, line) =>
        CheckContinue(line);
    }

    method VisitBlock(b: Block)
      requires currentFunc.Some?
      requires SafeBlock(env, b)
      modifies this
      ensures State() == WalkBlock(env, old(State()), b)
      decreases b, 1
    {
      PreBlock(b);
      VisitVarDecls(b.variables);
      VisitStmts(b.statements);
    }

    method VisitStmts(ss: seq<Stmt>)
      requires currentFunc.Some?
      requires forall st | st in ss :: SafeStmt(env, st)
      modifies this
      ensures State() == WalkStmts(env, old(State()), ss)
      decreases ss
    {
      if ss != [] {
        VisitStmt(ss[0]);
        VisitStmts(ss[1..]);
      }
    }

    method VisitFuncDecl(f: FuncDecl)
      requires currTable.Some?
      requires SafeBlock(env, f.body)
      modifies this
      ensures State() == WalkFuncDecl(env, old(State()), f)
    {
      PreFuncDecl(f);
      VisitBlock(f.body);
      PostFuncDecl();
    }

    method VisitFuncDecls(fs: seq<FuncDecl>)
      requires currTable.Some? && programTable.Some?
      requires forall f | f in fs :: SafeBlock(env, f.body)
      modifies this
      ensures State() == WalkFuncDecls(env, old(State()), fs)
      decreases fs
    {
      if fs != [] {
        VisitFuncDecl(fs[0]);
        VisitFuncDecls(fs[1..]);
      }
    }

    method VisitProgram(p: Program)
      requires SafeProgram(env, p)
      modifies this
      ensures State() == WalkProgram(env, old(State()), p)
    {
      PreProgram(p);
      VisitVarDecls(p.variables);
      VisitFuncDecls(p.functions);
      CheckMain(p);
    }
  }

  /**
   * Runs the analysis on a parsed program and returns its error list and
   * the "type" attributes it left on the nodes. A missing tree yields the
   * single "Null tree" diagnostic, no traversal and no attributes.
   */
  method Analyze(env: Env, tree: Option<Program>) returns (errs: seq<Diag>, types: map<NodeId, DecafType>)
    requires tree.Some? ==> SafeProgram(env, tree.value) && DistinctIds(tree.value)
    ensures tree.None? ==> errs == [NullTree] && types == map[]
    ensures tree.Some? ==> errs == WalkProgram(env, Initial, tree.value).errors
    ensures tree.Some? ==> types == WalkProgram(env, Initial, tree.value).types
  {
    var v := new Analyzer(env);
    if tree.None? {
      v.Report(NullTree);
    } else {
      v.VisitProgram(tree.value);
    }
    errs := v.errors;
    types := v.types;
  }
}
