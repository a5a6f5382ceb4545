/**
 * The per-callback rules of the analysis as pure functions: which type a
 * pre-visit writes into a node's "type" attribute, and which diagnostics a
 * check appends. Each is stated against an independent description of
 * what it decides.
 */
module AnalysisRules {
  import opened DecafAst

  /** Reads a node's "type" attribute; a node without one reads as the zero value. */
  function TypeOf(types: map<NodeId, DecafType>, id: NodeId): DecafType {
    if id in types then types[id] else Unknown
  }

  /** The type written for a node whose symbol lookup gave `sym`: VOID when unresolved. */
  function ResolvedType(sym: Option<Symbol>): (t: DecafType)
    ensures sym.Some? ==> t == sym.value.symType
    ensures sym.None? ==> t == Void
  {
    if sym.None? then Void else sym.value.symType
  }

  // ----- declarations -----

  /** The diagnostics of pre_vardecl, one per violated condition, in source order. */
  function VarDeclDiags(d: VarDecl): (r: seq<Diag>)
    ensures VoidVariable(d.name, d.line) in r <==> d.declType == Void
    ensures InvalidVariableName(d.name, d.line) in r <==> d.name == "main"
    ensures InvalidArrayDeclaration(d.arrayLength) in r <==> d.isArray && d.arrayLength < 0
    ensures forall x | x in r ::
              x == VoidVariable(d.name, d.line) || x == InvalidVariableName(d.name, d.line)
              || x == InvalidArrayDeclaration(d.arrayLength)
    ensures forall i, j | 0 <= i < j < |r| :: r[i] != r[j]
  {
    (if d.declType == Void then [VoidVariable(d.name, d.line)] else [])
    + (if d.name == "main" then [InvalidVariableName(d.name, d.line)] else [])
    + (if d.isArray && d.arrayLength < 0 then [InvalidArrayDeclaration(d.arrayLength)] else [])
  }

  /** The number of symbols in `syms` whose name is `name`. */
  function CountNamed(syms: seq<Symbol>, name: string): (n: nat)
    ensures n <= |syms|
  {
    if syms == [] then 0
    else CountNamed(syms[..|syms| - 1], name) + (if syms[|syms| - 1].name == name then 1 else 0)
  }

  /** `name` is declared at two different positions of `syms`. */
  predicate DeclaredTwice(syms: seq<Symbol>, name: string) {
    exists i, j :: 0 <= i < j < |syms| && syms[i].name == name && syms[j].name == name
  }

  /** `name` is declared at some position of `syms`. */
  predicate Declared(syms: seq<Symbol>, name: string) {
    exists i :: 0 <= i < |syms| && syms[i].name == name
  }

  lemma {:induction false} CountNamedPositive(syms: seq<Symbol>, name: string)
    ensures CountNamed(syms, name) >= 1 <==> Declared(syms, name)
  {
    if syms != [] {
      var init := syms[..|syms| - 1];
      CountNamedPositive(init, name);
      if Declared(init, name) {
        var i :| 0 <= i < |init| && init[i].name == name;
        assert syms[i] == init[i];
      }
      if Declared(syms, name) && syms[|syms| - 1].name != name {
        var i :| 0 <= i < |syms| && syms[i].name == name;
        assert init[i] == syms[i];
      }
    }
  }

  /** Counting and positions agree: the count reaches two exactly when two positions hold the name. */
  lemma {:induction false} CountNamedTwice(syms: seq<Symbol>, name: string)
    ensures CountNamed(syms, name) >= 2 <==> DeclaredTwice(syms, name)
  {
    if syms != [] {
      var init := syms[..|syms| - 1];
      var last := |syms| - 1;
      CountNamedTwice(init, name);
      CountNamedPositive(init, name);
      if DeclaredTwice(init, name) {
        var i, j :| 0 <= i < j < |init| && init[i].name == name && init[j].name == name;
        assert syms[i] == init[i] && syms[j] == init[j];
      }
      if syms[last].name == name && Declared(init, name) {
        var i :| 0 <= i < |init| && init[i].name == name;
        assert syms[i] == init[i];
      }
      if DeclaredTwice(syms, name) {
        var i, j :| 0 <= i < j < |syms| && syms[i].name == name && syms[j].name == name;
        if j < last {
          assert init[i] == syms[i] && init[j] == syms[j];
        } else {
          assert init[i] == syms[i];
        }
      }
    }
  }

  /** The counting loop of check_for_duplicates over a scope's local symbols. */
  method CountMatching(syms: seq<Symbol>, name: string) returns (dup: nat)
    ensures dup == CountNamed(syms, name)
  {
    dup := 0;
    var i := 0;
    while i < |syms|
      invariant 0 <= i <= |syms|
      invariant dup == CountNamed(syms[..i], name)
    {
      assert syms[..i + 1][..i] == syms[..i];
      if syms[i].name == name {
        dup := dup + 1;
      }
      i := i + 1;
    }
    assert syms[..i] == syms;
  }

  /** The diagnostic check_for_duplicates reports for the declaration of `name` on `line`. */
  function DuplicateDiags(table: SymbolTable, name: string, line: int): (r: seq<Diag>)
    ensures |r| <= 1
    ensures r != [] <==> DeclaredTwice(table.localSymbols, name)
    ensures r != [] ==> r[0] == DuplicateSymbol(name, line)
  {
    CountNamedTwice(table.localSymbols, name);
    if CountNamed(table.localSymbols, name) > 1 then [DuplicateSymbol(name, line)] else []
  }

  /** A declaration reports only declaration diagnostics. */
  lemma DeclarationDiagKinds(d: VarDecl, table: SymbolTable)
    ensures forall x | x in VarDeclDiags(d) + DuplicateDiags(table, d.name, d.line) ::
              x.VoidVariable? || x.InvalidVariableName? || x.InvalidArrayDeclaration? || x.DuplicateSymbol?
  {
  }

  // ----- expressions -----

  predicate IsArithmetic(op: BinaryOp) {
    op == Add || op == Sub || op == Mul || op == Div || op == Mod
  }

  /** The operand requirement of each operator class. */
  datatype OperandRule = BothBool | SameType | BothInt

  function OperandRuleOf(op: BinaryOp): OperandRule {
    match op
    case Or | And => BothBool
    case Eq | Neq => SameType
    case Lt | Le | Ge | Gt => BothInt
    case Add | Sub | Mul | Div | Mod => BothInt
  }

  predicate Conforms(rule: OperandRule, left: DecafType, right: DecafType) {
    match rule
    case BothBool => left == Bool && right == Bool
    case SameType => left == right
    case BothInt => left == Int && right == Int
  }

  /** The type pre_binop writes: INT for arithmetic, BOOL for the logical, equality and relational operators. */
  function BinopType(op: BinaryOp): (t: DecafType)
    ensures t == Int <==> IsArithmetic(op)
    ensures t == Bool <==> OperandRuleOf(op) != BothInt || op in {Lt, Le, Ge, Gt}
  {
    if op == Add || op == Sub || op == Mul || op == Div || op == Mod then Int else Bool
  }

  /** The diagnostic post_binop reports: at most one, exactly when the operator's rule fails. */
  function BinopDiags(line: int, op: BinaryOp, left: DecafType, right: DecafType): (r: seq<Diag>)
    ensures |r| <= 1
    ensures r == [] <==> Conforms(OperandRuleOf(op), left, right)
    ensures r != [] ==> r[0] == InvalidBinaryOp(line, op, left, right)
  {
    var report := [InvalidBinaryOp(line, op, left, right)];
    if op == Or || op == And then
      (if left != Bool || right != Bool then report else [])
    else if op == Eq || op == Neq then
      (if left != right then report else [])
    else if op == Lt || op == Le || op == Ge || op == Gt then
      (if left != Int || right != Int then report else [])
    else
      (if left != Int || right != Int then report else [])
  }

  /** The diagnostic post_unop reports when a node's type differs from its operand's. */
  function UnopDiags(line: int, op: UnaryOp, nodeType: DecafType, childType: DecafType): (r: seq<Diag>)
    ensures |r| <= 1
    ensures r == [] <==> nodeType == childType
    ensures r != [] ==> r[0] == InvalidUnaryOp(line, op, nodeType, childType)
  {
    if nodeType != childType then [InvalidUnaryOp(line, op, nodeType, childType)] else []
  }

  /**
   * The attribute map after pre_unop. The switch has no break after the
   * NEGOP case, so a negation first writes INT and then falls into the
   * NOTOP case, whose BOOL overwrites it.
   */
  function UnopTypes(types: map<NodeId, DecafType>, id: NodeId, op: UnaryOp): (r: map<NodeId, DecafType>)
    ensures r == types[id := Bool]
  {
    var afterNeg := if op == Neg then types[id := Int] else types;
    afterNeg[id := Bool]
  }

  /**
   * The diagnostic post_location reports. `sym` is the lookup of the
   * location's name; `index` is the integer read from the index node, if
   * there is one (an indexed location whose name does not resolve makes
   * the source dereference a null symbol).
   */
  function LocationDiags(name: string, line: int, sym: Option<Symbol>, index: Option<int>): (r: seq<Diag>)
    requires index.Some? ==> sym.Some?
    ensures |r| <= 1
    ensures index.None? && sym.None? ==> r == [UndefinedSymbol(name, line)]
    ensures index.None? && sym.Some? ==> (r != [] <==> sym.value.length > 1)
    ensures index.None? && r != [] && sym.Some? ==> r[0] == InvalidArrayAccess(line)
    ensures index.Some? ==> (r == [] <==> 0 <= index.value < sym.value.length)
    ensures index.Some? && index.value < 0 ==> r == [NegativeIndex(name, index.value, line)]
    ensures index.Some? && index.value >= 0 && r != [] ==> r == [IndexOutOfBounds(name, index.value, line)]
  {
    if index.None? then
      if sym.None? then [UndefinedSymbol(name, line)]
      else if sym.value.length > 1 then [InvalidArrayAccess(line)]
      else []
    else if index.value < 0 then [NegativeIndex(name, index.value, line)]
    else if index.value >= sym.value.length then [IndexOutOfBounds(name, index.value, line)]
    else []
  }

  /** The diagnostic post_funcCall reports: the first parameter's type against the first argument's. */
  function ArgumentDiags(line: int, callee: Symbol, firstArgType: DecafType): (r: seq<Diag>)
    requires |callee.parameters| > 0
    ensures r == [] <==> callee.parameters[0].paramType == firstArgType
    ensures r != [] ==> r == [InvalidArgument(line)]
  {
    if callee.parameters[0].paramType != firstArgType then [InvalidArgument(line)] else []
  }

  // ----- statements -----

  /** The diagnostic post_assignment reports: one exactly when the two sides' types differ. */
  function AssignmentDiags(line: int, name: string, locType: DecafType, valueType: DecafType): (r: seq<Diag>)
    ensures |r| <= 1
    ensures r == [] <==> locType == valueType
    ensures r != [] ==> r[0] == AssignmentMismatch(line, name, locType, valueType)
  {
    if locType != valueType then [AssignmentMismatch(line, name, locType, valueType)] else []
  }

  /** The diagnostic post_conditional reports: the node's own type (BOOL) against the condition's. */
  function ConditionDiags(line: int, nodeType: DecafType, condType: DecafType): (r: seq<Diag>)
    ensures |r| <= 1
    ensures r == [] <==> nodeType == condType
    ensures r != [] ==> r[0] == InvalidCondition(line, nodeType, condType)
  {
    if nodeType != condType then [InvalidCondition(line, nodeType, condType)] else []
  }

  /**
   * The diagnostic post_return reports. `expected` is the return node's
   * own type (the enclosing function's return type); `value` is the type
   * of the returned expression, None for a bare `return`.
   */
  function ReturnDiags(line: int, expected: DecafType, value: Option<DecafType>): (r: seq<Diag>)
    ensures |r| <= 1
    ensures value.None? ==> (r != [] <==> expected != Void)
    ensures value.None? && r != [] ==> r[0] == ReturnMismatch(line, expected, Void)
    ensures value == Some(Void) ==> r == []
    ensures value.Some? && value.value != Void ==> (r != [] <==> value.value != expected)
    ensures value.Some? && r != [] ==> r[0] == ReturnMismatch(line, expected, value.value)
  {
    if expected != Void && value.None? then [ReturnMismatch(line, expected, Void)]
    else if value.Some? && value.value == Void then []
    else if value.Some? && expected != value.value then [ReturnMismatch(line, expected, value.value)]
    else []
  }

  // ----- program -----

  /**
   * The diagnostics of check_main, given the lookup of "main" from the
   * program node: "no main" exactly when it is missing, the parameters
   * diagnostic exactly when it has parameters, never both.
   */
  function MainDiags(main: Option<Symbol>, line: int): (r: seq<Diag>)
    ensures |r| <= 1
    ensures NoMain in r <==> main.None?
    ensures MainHasParameters(line) in r <==> main.Some? && |main.value.parameters| > 0
    ensures r == [] <==> main.Some? && main.value.parameters == []
  {
    (if main.None? then [NoMain] else [])
    + (if main.Some? && main.value.parameters != [] then [MainHasParameters(line)] else [])
  }
}
