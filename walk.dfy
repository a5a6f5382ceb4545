/**
 * What one traversal does, as functions over the analysis state: at every
 * node the registered pre-visit callback, then the children in source
 * order, then the registered post-visit callback. A node kind with no
 * registered callback for a phase is passed through in that phase.
 */
module AnalysisSpec {
  import opened DecafAst
  import opened AnalysisRules

  /**
   * The collaborators the analysis calls but does not define: the scoped
   * symbol lookup from a node, and the integer the source reads from an
   * array index node that is not a literal (it reads the node's literal
   * field regardless of the node's kind).
   */
  datatype Env = Env(lookup: (NodeId, string) -> Option<Symbol>, unionInteger: NodeId -> int)

  /** The analysis data plus the diagnostics and the per-node "type" attributes. */
  datatype State = State(errors: seq<Diag>, currentFunc: Option<string>, inWhile: bool,
                         currTable: Option<SymbolTable>, programTable: Option<SymbolTable>,
                         types: map<NodeId, DecafType>)

  /** The state a fresh analysis starts from. */
  const Initial := State([], None, false, None, None, map[])

  /** Only the diagnostics and the attributes differ, and diagnostics were only appended. */
  predicate ErrorsAndTypesOnly(s: State, r: State) {
    r == s.(errors := r.errors, types := r.types) && s.errors <= r.errors
  }

  /** None of `ds` reports a misplaced break or continue. */
  predicate NoLoopControl(ds: seq<Diag>) {
    forall d | d in ds :: !d.InvalidBreak? && !d.InvalidContinue?
  }

  /** None of `ds` is a whole-program diagnostic (about the tree or about main). */
  predicate NoProgramLevel(ds: seq<Diag>) {
    forall d | d in ds :: !d.NullTree? && !d.NoMain? && !d.MainHasParameters?
  }

  /** The integer post_location reads from an index node. */
  function IndexValue(env: Env, e: Expr): int {
    if e.Literal? then e.integer else env.unionInteger(e.Id())
  }

  // ----- what the source needs in order not to dereference a null pointer -----

  predicate SafeExpr(env: Env, e: Expr)
    decreases e, 0
  {
    match e
    case LocationExpr(l) => SafeLocation(env, l)
    case Literal(_, _, _, _) => true
    case BinaryOpExpr(_, _, _, left, right) => SafeExpr(env, left) && SafeExpr(env, right)
    case UnaryOpExpr(_, _, _, child) => SafeExpr(env, child)
    case CallExpr(c) => SafeCall(env, c)
  }

  /** An indexed location must resolve. */
  predicate SafeLocation(env: Env, l: Location)
    decreases l, 1
  {
    l.index.Some? ==> env.lookup(l.id, l.name).Some? && SafeExpr(env, l.index.value)
  }

  /** A call must resolve to a function with a parameter and must pass an argument. */
  predicate SafeCall(env: Env, c: FuncCall)
    decreases c, 1
  {
    env.lookup(c.id, c.name).Some? && |env.lookup(c.id, c.name).value.parameters| > 0
    && |c.arguments| > 0 && forall a | a in c.arguments :: SafeExpr(env, a)
  }

  predicate SafeStmt(env: Env, st: Stmt)
    decreases st, 0
  {
    match st
    case Assignment(_, _, loc, value) => SafeLocation(env, loc) && SafeExpr(env, value)
    case CallStmt(c) => SafeCall(env, c)
    case Conditional(_, _, cond, ifBlock, elseBlock) =>
      SafeExpr(env, cond) && SafeBlock(env, ifBlock)
      && (elseBlock.Some? ==> SafeBlock(env, elseBlock.value))
    case WhileLoop(_, _, cond, body) => SafeExpr(env, cond) && SafeBlock(env, body)
    case Return(_, _, value) => value.Some? ==> SafeExpr(env, value.value)
    case Break(_, _) => true
    case Continue(_, _) => true
  }

  predicate SafeBlock(env: Env, b: Block)
    decreases b, 1
  {
    forall st | st in b.statements :: SafeStmt(env, st)
  }

  predicate SafeProgram(env: Env, p: Program) {
    forall f | f in p.functions :: SafeBlock(env, f.body)
  }

  // ----- loops -----

  predicate StmtHasLoop(st: Stmt)
    decreases st, 0
  {
    match st
    case WhileLoop(_, _, _, _) => true
    case Conditional(_, _, _, ifBlock, elseBlock) =>
      BlockHasLoop(ifBlock) || (elseBlock.Some? && BlockHasLoop(elseBlock.value))
    case _ => false
  }

  predicate BlockHasLoop(b: Block)
    decreases b, 1
  {
    StmtsHaveLoop(b.statements)
  }

  predicate StmtsHaveLoop(ss: seq<Stmt>)
    decreases ss
  {
    ss != [] && (StmtHasLoop(ss[0]) || StmtsHaveLoop(ss[1..]))
  }

  predicate FuncsHaveLoop(fs: seq<FuncDecl>)
    decreases fs
  {
    fs != [] && (BlockHasLoop(fs[0].body) || FuncsHaveLoop(fs[1..]))
  }

  // ----- the traversal -----

  function WalkExpr(env: Env, s: State, e: Expr): (r: State)
    requires SafeExpr(env, e)
    ensures ErrorsAndTypesOnly(s, r)
    decreases e, 0
  {
    match e
    case LocationExpr(l) => WalkLocation(env, s, l)
    case Literal(id, _, t, _) => s.(types := s.types[id := t])
    case BinaryOpExpr(id, line, op, left, right) =>
      var s1 := s.(types := s.types[id := BinopType(op)]);
      var s2 := WalkExpr(env, WalkExpr(env, s1, left), right);
      s2.(errors := s2.errors + BinopDiags(line, op, TypeOf(s2.types, left.Id()), TypeOf(s2.types, right.Id())))
    case UnaryOpExpr(id, line, op, child) =>
      var s1 := s.(types := UnopTypes(s.types, id, op));
      var s2 := WalkExpr(env, s1, child);
      s2.(errors := s2.errors + UnopDiags(line, op, TypeOf(s2.types, id), TypeOf(s2.types, child.Id())))
    case CallExpr(c) => WalkCall(env, s, c)
  }

  function WalkLocation(env: Env, s: State, l: Location): (r: State)
    requires SafeLocation(env, l)
    ensures ErrorsAndTypesOnly(s, r)
    decreases l, 1
  {
    var sym := env.lookup(l.id, l.name);
    var s1 := s.(types := s.types[l.id := ResolvedType(sym)]);
    var s2 := if l.index.Some? then WalkExpr(env, s1, l.index.value) else s1;
    var index := if l.index.Some? then Some(IndexValue(env, l.index.value)) else None;
    s2.(errors := s2.errors + LocationDiags(l.name, l.line, sym, index))
  }

  function WalkCall(env: Env, s: State, c: FuncCall): (r: State)
    requires SafeCall(env, c)
    ensures ErrorsAndTypesOnly(s, r)
    decreases c, 1
  {
    var sym := env.lookup(c.id, c.name);
    var s1 := s.(types := s.types[c.id := ResolvedType(sym)]);
    var s2 := WalkExprs(env, s1, c.arguments);
    s2.(errors := s2.errors + ArgumentDiags(c.line, sym.value, TypeOf(s2.types, c.arguments[0].Id())))
  }

  function WalkExprs(env: Env, s: State, es: seq<Expr>): (r: State)
    requires forall e | e in es :: SafeExpr(env, e)
    ensures ErrorsAndTypesOnly(s, r)
    decreases es
  {
    if es == [] then s
    else
      var s1 := WalkExpr(env, s, es[0]);
      WalkExprs(env, s1, es[1..])
  }

  function WalkVarDecl(env: Env, s: State, d: VarDecl): (r: State)
    requires s.currTable.Some?
    ensures ErrorsAndTypesOnly(s, r)
    ensures TypeOf(r.types, d.id) == d.declType
    ensures r.errors == s.errors + (VarDeclDiags(d) + DuplicateDiags(s.currTable.value, d.name, d.line))
  {
    // pre_vardecl's diagnostics, then post_vardecl's duplicate check
    var added := VarDeclDiags(d) + DuplicateDiags(s.currTable.value, d.name, d.line);
    s.(errors := s.errors + added, types := s.types[d.id := d.declType])
  }

  function WalkVarDecls(env: Env, s: State, ds: seq<VarDecl>): (r: State)
    requires s.currTable.Some?
    ensures ErrorsAndTypesOnly(s, r)
    decreases ds
  {
    if ds == [] then s else WalkVarDecls(env, WalkVarDecl(env, s, ds[0]), ds[1..])
  }

  function WalkStmt(env: Env, s: State, st: Stmt): (r: State)
    requires s.currentFunc.Some?
    requires SafeStmt(env, st)
    ensures r.currentFunc == s.currentFunc && r.programTable == s.programTable
    ensures r.inWhile == (s.inWhile || StmtHasLoop(st))
    ensures s.errors <= r.errors
    decreases st, 0
  {
    match st
    case Assignment(_, line, loc, value) =>
      var s1 := WalkExpr(env, WalkLocation(env, s, loc), value);
      s1.(errors := s1.errors + AssignmentDiags(line, loc.name, TypeOf(s1.types, loc.id), TypeOf(s1.types, value.Id())))
    case CallStmt(c) => WalkCall(env, s, c)
    case Conditional(id, line, cond, ifBlock, elseBlock) =>
      var s1 := WalkExpr(env, s.(types := s.types[id := Bool]), cond);
      var s2 := WalkBlock(env, s1, ifBlock);
      var s3 := if elseBlock.Some? then WalkBlock(env, s2, elseBlock.value) else s2;
      s3.(errors := s3.errors + ConditionDiags(line, TypeOf(s3.types, id), TypeOf(s3.types, cond.Id())))
    case WhileLoop(id, _, cond, body) =>
      var s1 := WalkExpr(env, s.(inWhile := true, types := s.types[id := Bool]), cond);
      WalkBlock(env, s1, body)
    case Return(id, line, value) =>
      var s1 := s.(types := s.types[id := ResolvedType(env.lookup(id, s.currentFunc.value))]);
      var s2 := if value.Some? then WalkExpr(env, s1, value.value) else s1;
      var valueType := if value.Some? then Some(TypeOf(s2.types, value.value.Id())) else None;
      s2.(errors := s2.errors + ReturnDiags(line, TypeOf(s2.types, id), valueType))
    case Break(_, line) =>
      s.(errors := s.errors + if s.inWhile then [] else [InvalidBreak(line)])
    case Continue(_, line) =>
      s.(errors := s.errors + if s.inWhile then [] else [InvalidContinue(line)])
  }

  function WalkBlock(env: Env, s: State, b: Block): (r: State)
    requires s.currentFunc.Some?
    requires SafeBlock(env, b)
    ensures r.currentFunc == s.currentFunc && r.programTable == s.programTable
    ensures r.inWhile == (s.inWhile || BlockHasLoop(b))
    ensures s.errors <= r.errors
    decreases b, 1
  {
    var s1 := WalkVarDecls(env, s.(currTable := Some(b.table)), b.variables);
    WalkStmts(env, s1, b.statements)
  }

  function WalkStmts(env: Env, s: State, ss: seq<Stmt>): (r: State)
    requires s.currentFunc.Some?
    requires forall st | st in ss :: SafeStmt(env, st)
    ensures r.currentFunc == s.currentFunc && r.programTable == s.programTable
    ensures r.inWhile == (s.inWhile || StmtsHaveLoop(ss))
    ensures s.errors <= r.errors
    decreases ss
  {
    if ss == [] then s else WalkStmts(env, WalkStmt(env, s, ss[0]), ss[1..])
  }

  function WalkFuncDecl(env: Env, s: State, f: FuncDecl): (r: State)
    requires s.currTable.Some?
    requires SafeBlock(env, f.body)
    ensures r.currentFunc == None
    ensures r.currTable == r.programTable == s.programTable
    ensures r.inWhile == (s.inWhile || BlockHasLoop(f.body))
    ensures s.errors <= r.errors
  {
    var s1 := s.(currentFunc := Some(f.name), types := s.types[f.id := f.returnType]);
    var s2 := s1.(errors := s1.errors + DuplicateDiags(s1.currTable.value, f.name, f.line));
    var s3 := WalkBlock(env, s2.(currTable := Some(f.table)), f.body);
    s3.(currentFunc := None, currTable := s3.programTable)
  }

  function WalkFuncDecls(env: Env, s: State, fs: seq<FuncDecl>): (r: State)
    requires s.currTable.Some? && s.programTable.Some?
    requires forall f | f in fs :: SafeBlock(env, f.body)
    ensures r.programTable == s.programTable
    ensures fs != [] ==> r.currentFunc == None && r.currTable == s.programTable
    ensures fs == [] ==> r == s
    ensures r.inWhile == (s.inWhile || FuncsHaveLoop(fs))
    ensures s.errors <= r.errors
    decreases fs
  {
    if fs == [] then s else WalkFuncDecls(env, WalkFuncDecl(env, s, fs[0]), fs[1..])
  }

  function WalkProgram(env: Env, s: State, p: Program): (r: State)
    requires SafeProgram(env, p)
    ensures r.programTable == Some(p.table)
    ensures s.errors <= r.errors
  {
    var s1 := s.(currTable := Some(p.table), programTable := Some(p.table));
    var s2 := WalkFuncDecls(env, WalkVarDecls(env, s1, p.variables), p.functions);
    s2.(errors := s2.errors + MainDiags(env.lookup(p.id, "main"), p.line))
  }
}
