/**
 * The Decaf abstract syntax tree as the analysis sees it, the symbols and
 * scopes built by the symbol-table phase, and the diagnostics the analysis
 * reports. The tree and the tables are values: the analysis never changes
 * them, it only reads them.
 */
module DecafAst {

  datatype Option<+T> = None | Some(value: T)

  /** The identity of an AST node (the node's address in the source). */
  type NodeId = nat

  /**
   * The Decaf types. Unknown is the enumeration's zero value: it is what
   * reading the "type" attribute gives for a node that never had one set.
   */
  datatype DecafType = Unknown | Int | Bool | Void | Str

  datatype BinaryOp = Or | And | Eq | Neq | Lt | Le | Ge | Gt | Add | Sub | Mul | Div | Mod

  datatype UnaryOp = Neg | Not

  datatype Param = Param(name: string, paramType: DecafType)

  /** A declared name: its type, its length (1 for scalars) and, for a function, its parameters. */
  datatype Symbol = Symbol(name: string, symType: DecafType, length: int, parameters: seq<Param>)

  /** One scope's locally declared symbols, in declaration order. */
  datatype SymbolTable = SymbolTable(localSymbols: seq<Symbol>)

  datatype Program = Program(id: NodeId, line: int, table: SymbolTable,
                             variables: seq<VarDecl>, functions: seq<FuncDecl>)

  datatype VarDecl = VarDecl(id: NodeId, line: int, name: string, declType: DecafType,
                             isArray: bool, arrayLength: int)

  datatype FuncDecl = FuncDecl(id: NodeId, line: int, name: string, returnType: DecafType,
                               parameters: seq<Param>, table: SymbolTable, body: Block)

  datatype Block = Block(id: NodeId, line: int, table: SymbolTable,
                         variables: seq<VarDecl>, statements: seq<Stmt>)

  datatype Stmt =
    | Assignment(id: NodeId, line: int, location: Location, value: Expr)
    | CallStmt(call: FuncCall)
    | Conditional(id: NodeId, line: int, condition: Expr, ifBlock: Block, elseBlock: Option<Block>)
    | WhileLoop(id: NodeId, line: int, condition: Expr, body: Block)
    | Return(id: NodeId, line: int, returnValue: Option<Expr>)
    | Break(id: NodeId, line: int)
    | Continue(id: NodeId, line: int)

  datatype Expr =
    | LocationExpr(loc: Location)
    | Literal(id: NodeId, line: int, litType: DecafType, integer: int)
    | BinaryOpExpr(id: NodeId, line: int, op: BinaryOp, left: Expr, right: Expr)
    | UnaryOpExpr(id: NodeId, line: int, unop: UnaryOp, child: Expr)
    | CallExpr(call: FuncCall)
  {
    /** The identity of the node this expression is. */
    function Id(): NodeId {
      match this
      case LocationExpr(l) => l.id
      case Literal(id, _, _, _) => id
      case BinaryOpExpr(id, _, _, _, _) => id
      case UnaryOpExpr(id, _, _, _) => id
      case CallExpr(c) => c.id
    }
  }

  datatype Location = Location(id: NodeId, line: int, name: string, index: Option<Expr>)

  datatype FuncCall = FuncCall(id: NodeId, line: int, name: string, arguments: seq<Expr>)

  /** One reported defect; the fields are those the message is formatted from. */
  datatype Diag =
    | NullTree
    | UndefinedSymbol(name: string, line: int)
    | DuplicateSymbol(name: string, line: int)
    | VoidVariable(name: string, line: int)
    | InvalidVariableName(name: string, line: int)
    | InvalidArrayDeclaration(length: int)
    | InvalidBreak(line: int)
    | InvalidContinue(line: int)
    | InvalidArrayAccess(line: int)
    | NegativeIndex(name: string, index: int, line: int)
    | IndexOutOfBounds(name: string, index: int, line: int)
    | NoMain
    | MainHasParameters(line: int)
    | AssignmentMismatch(line: int, name: string, expected: DecafType, actual: DecafType)
    | ReturnMismatch(line: int, expected: DecafType, actual: DecafType)
    | InvalidCondition(line: int, expected: DecafType, actual: DecafType)
    | InvalidBinaryOp(line: int, op: BinaryOp, leftType: DecafType, rightType: DecafType)
    | InvalidUnaryOp(line: int, unop: UnaryOp, expected: DecafType, actual: DecafType)
    | InvalidArgument(line: int)

  // ----- node identities -----

  /** The identities of the nodes of an expression, in traversal order. */
  function ExprIds(e: Expr): seq<NodeId>
    decreases e, 0
  {
    match e
    case LocationExpr(l) => LocationIds(l)
    case Literal(id, _, _, _) => [id]
    case BinaryOpExpr(id, _, _, left, right) => [id] + ExprIds(left) + ExprIds(right)
    case UnaryOpExpr(id, _, _, child) => [id] + ExprIds(child)
    case CallExpr(c) => CallIds(c)
  }

  function LocationIds(l: Location): seq<NodeId>
    decreases l, 1
  {
    [l.id] + if l.index.Some? then ExprIds(l.index.value) else []
  }

  function CallIds(c: FuncCall): seq<NodeId>
    decreases c, 1
  {
    [c.id] + ExprsIds(c.arguments)
  }

  function ExprsIds(es: seq<Expr>): seq<NodeId>
    decreases es
  {
    if es == [] then [] else ExprIds(es[0]) + ExprsIds(es[1..])
  }

  function VarDeclsIds(ds: seq<VarDecl>): seq<NodeId> {
    if ds == [] then [] else [ds[0].id] + VarDeclsIds(ds[1..])
  }

  function StmtIds(st: Stmt): seq<NodeId>
    decreases st, 0
  {
    match st
    case Assignment(id, _, loc, value) => [id] + LocationIds(loc) + ExprIds(value)
    case CallStmt(c) => CallIds(c)
    case Conditional(id, _, cond, ifBlock, elseBlock) =>
      [id] + ExprIds(cond) + BlockIds(ifBlock) + (if elseBlock.Some? then BlockIds(elseBlock.value) else [])
    case WhileLoop(id, _, cond, body) => [id] + ExprIds(cond) + BlockIds(body)
    case Return(id, _, value) => [id] + if value.Some? then ExprIds(value.value) else []
    case Break(id, _) => [id]
    case Continue(id, _) => [id]
  }

  function BlockIds(b: Block): seq<NodeId>
    decreases b, 1
  {
    [b.id] + VarDeclsIds(b.variables) + StmtsIds(b.statements)
  }

  function StmtsIds(ss: seq<Stmt>): seq<NodeId>
    decreases ss
  {
    if ss == [] then [] else StmtIds(ss[0]) + StmtsIds(ss[1..])
  }

  function FuncDeclsIds(fs: seq<FuncDecl>): seq<NodeId> {
    if fs == [] then [] else [fs[0].id] + BlockIds(fs[0].body) + FuncDeclsIds(fs[1..])
  }

  function ProgramIds(p: Program): seq<NodeId> {
    [p.id] + VarDeclsIds(p.variables) + FuncDeclsIds(p.functions)
  }

  /**
   * Every node of the tree is a separate object with its own attributes:
   * no identity occurs twice.
   */
  predicate DistinctIds(p: Program) {
    var ids := ProgramIds(p);
    forall i, j | 0 <= i < j < |ids| :: ids[i] != ids[j]
  }
}
