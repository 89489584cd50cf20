/** The block language: expressions and statements, and how much code each compiles to. */
module Ast {
  import opened Common
  import opened Bytecode

  /** Literal values. */
  datatype Lit = NumLit(bits: U64) | TxtLit(text: Str) | BoolLit(b: bool) | ListLit(items: seq<Lit>)

  /** Blocks that evaluate their operands in order and apply one instruction. */
  datatype SimpleOp =
    | OfBinary(bop: BinaryOp) | OfUnary(uop: UnaryOp) | OfRelation(rel: Relation) | OfIdentical
    | OfCons | OfCdr | OfIsEmpty | OfLength | OfReverse | OfLast

  datatype Expr =
    | Literal(v: Lit)
    | Variable(name: Str)
    | Simple(op: SimpleOp, args: seq<Expr>)
    | Reduce(vop: VariadicOp, src: Expr)
    | ListOf(items: seq<Expr>)
    | Conditional(cond: Expr, then_: Expr, else_: Expr)
    | Or(left: Expr, right: Expr)
    | And(left: Expr, right: Expr)
    | CallFn(function_: Str, args: seq<Expr>, upvars: seq<Str>)
    | CallValue(closure: Expr, args: seq<Expr>)
    | Lambda(params: seq<Str>, captures: seq<Str>, body: seq<Stmt>)
    | Map(f: Expr, list: Expr)
    | Keep(f: Expr, list: Expr)
    | FindFirst(f: Expr, list: Expr)
    | FoldWith(f: Expr, list: Expr)

  /** A loop variable: declared by its name, assigned by its transformed name. */
  datatype Var = Var(name: Str, trans: Str)

  /** Statements that evaluate their operands in order and apply one instruction. */
  datatype SimpleDo = DoInsertLast | DoAssignLast | DoRemoveLast | DoRemoveAll | DoThrow

  datatype Stmt =
    | SetVar(name: Str, value: Expr)
    | ChangeVar(name: Str, value: Expr)
    | DeclareLocals(names: seq<Str>)
    | Do(op: SimpleDo, args: seq<Expr>)
    | ReturnValue(value: Expr)
    | Warp(body: seq<Stmt>)
    | InfLoop(body: seq<Stmt>)
    | UntilLoop(cond: Expr, body: seq<Stmt>)
    | Repeat(times: Expr, body: seq<Stmt>)
    | ForLoop(v: Var, start: Expr, stop: Expr, body: seq<Stmt>)
    | ForeachLoop(v: Var, items: Expr, body: seq<Stmt>)
    | If(cond: Expr, then_: seq<Stmt>)
    | IfElse(cond: Expr, then_: seq<Stmt>, else_: seq<Stmt>)
    | TryCatch(body: seq<Stmt>, name: Str, handler: seq<Stmt>)
    | RunFn(function_: Str, args: seq<Expr>, upvars: seq<Str>)
    | RunValue(closure: Expr, args: seq<Expr>)

  function Lower(op: SimpleOp): Instruction {
    match op
    case OfBinary(b) => Binary(b)
    case OfUnary(u) => Unary(u)
    case OfRelation(r) => Cmp(r)
    case OfIdentical => Identical
    case OfCons => ListCons
    case OfCdr => ListCdr
    case OfIsEmpty => ListIsEmpty
    case OfLength => ListLength
    case OfReverse => ListRev
    case OfLast => ListGetLast
  }

  function LowerDo(op: SimpleDo): Instruction {
    match op
    case DoInsertLast => ListInsertLast
    case DoAssignLast => ListAssignLast
    case DoRemoveLast => ListRemoveLast
    case DoRemoveAll => ListRemoveAll
    case DoThrow => Throw
  }

  // ----- code sizes, in instructions -----

  function LitLen(v: Lit): (n: nat)
    ensures n >= 1
  {
    match v case ListLit(items) => LitsLen(items) + 1 case _ => 1
  }

  function LitsLen(vs: seq<Lit>): nat {
    if vs == [] then 0 else LitLen(vs[0]) + LitsLen(vs[1..])
  }

  /** A list that is written out. */
  predicate Written(e: Expr) {
    e.Literal? && e.v.ListLit?
  }

  function ExprLen(e: Expr): (n: nat)
    ensures n >= 1
  {
    match e
    case Literal(v) => LitLen(v)
    case Variable(_) => 1
    case Simple(_, args) => ExprsLen(args) + 1
    case Reduce(_, src) =>
      (if src.ListOf? then ExprsLen(src.items) else if Written(src) then LitsLen(src.v.items) else ExprLen(src)) + 1
    case ListOf(items) => ExprsLen(items) + 1
    case Conditional(c, t, f) => ExprLen(c) + ExprLen(t) + ExprLen(f) + 2
    case Or(l, r) => ExprLen(l) + ExprLen(r) + 4
    case And(l, r) => ExprLen(l) + ExprLen(r) + 4
    case CallFn(_, args, upvars) => |upvars| + ExprsLen(args) + 1
    case CallValue(f, args) => ExprLen(f) + ExprsLen(args) + 1
    case Lambda(_, _, _) => 1
    case Map(f, l) => ExprLen(f) + ExprLen(l) + 14
    case Keep(f, l) => ExprLen(f) + ExprLen(l) + 17
    case FindFirst(f, l) => ExprLen(f) + ExprLen(l) + 14
    case FoldWith(f, l) => ExprLen(f) + ExprLen(l) + 16
  }

  function ExprsLen(es: seq<Expr>): nat {
    if es == [] then 0 else ExprLen(es[0]) + ExprsLen(es[1..])
  }

  function StmtLen(s: Stmt): nat {
    match s
    case SetVar(_, value) => ExprLen(value) + 1
    case ChangeVar(_, value) => ExprLen(value) + 1
    case DeclareLocals(names) => |names|
    case Do(_, args) => ExprsLen(args) + 1
    case ReturnValue(value) => ExprLen(value) + 1
    case Warp(body) => StmtsLen(body) + 2
    case InfLoop(body) => StmtsLen(body) + 2
    case UntilLoop(c, body) => ExprLen(c) + StmtsLen(body) + 3
    case Repeat(times, body) => ExprLen(times) + StmtsLen(body) + 9
    case ForLoop(_, a, b, body) => ExprLen(a) + ExprLen(b) + StmtsLen(body) + 33
    case ForeachLoop(_, items, body) => ExprLen(items) + StmtsLen(body) + 8
    case If(c, t) => ExprLen(c) + StmtsLen(t) + 1
    case IfElse(c, t, f) => ExprLen(c) + StmtsLen(t) + StmtsLen(f) + 2
    case TryCatch(body, _, handler) => StmtsLen(body) + StmtsLen(handler) + 4
    case RunFn(_, args, upvars) => |upvars| + ExprsLen(args) + 2
    case RunValue(f, args) => ExprLen(f) + ExprsLen(args) + 2
  }

  function StmtsLen(ss: seq<Stmt>): nat {
    if ss == [] then 0 else StmtLen(ss[0]) + StmtsLen(ss[1..])
  }
}
