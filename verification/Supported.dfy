/** Which programs compile, and how many closures they hold. */
module Supported {
  import opened Common
  import opened Bytecode
  import opened Machine
  import opened Tokens
  import opened Ast
  import opened Source
  import opened Codegen

  /** Operators have as many operands as they take, called blocks exist, and names can be packed. */
  predicate SupportedExpr(g: Scope, e: Expr)
    decreases e
  {
    || e.Literal? || e.Variable?
    || (e.Simple? && Arity(Lower(e.op)) == Some(|e.args|) && SupportedAll(g, e.args))
    || (e.Reduce? && !e.vop.StrCat? && SupportedExpr(g, e.src))
    || (e.ListOf? && SupportedAll(g, e.items))
    || (e.Conditional? && SupportedExpr(g, e.cond) && SupportedExpr(g, e.then_) && SupportedExpr(g, e.else_))
    || ((e.Or? || e.And?) && SupportedExpr(g, e.left) && SupportedExpr(g, e.right))
    || (e.CallFn? && Callable(g, e.function_, |e.args|) && SupportedAll(g, e.args))
    || (e.CallValue? && SupportedExpr(g, e.closure) && SupportedAll(g, e.args))
    || (e.Lambda? && NulFree(e.params + e.captures) && SupportedBody(g, e.body))
    || ((e.Map? || e.Keep? || e.FindFirst? || e.FoldWith?) && SupportedExpr(g, e.f) && SupportedExpr(g, e.list))
  }

  predicate SupportedAll(g: Scope, es: seq<Expr>)
    decreases es
  {
    forall i :: 0 <= i < |es| ==> SupportedExpr(g, es[i])
  }

  predicate SupportedStmt(g: Scope, s: Stmt)
    decreases s
  {
    || s.DeclareLocals?
    || ((s.SetVar? || s.ChangeVar? || s.ReturnValue?) && SupportedExpr(g, s.value))
    || (s.Do? && Arity(LowerDo(s.op)) == Some(|s.args|) && SupportedAll(g, s.args))
    || ((s.Warp? || s.InfLoop?) && SupportedBody(g, s.body))
    || (s.UntilLoop? && SupportedExpr(g, s.cond) && SupportedBody(g, s.body))
    || (s.Repeat? && SupportedExpr(g, s.times) && SupportedBody(g, s.body))
    || (s.ForLoop? && SupportedExpr(g, s.start) && SupportedExpr(g, s.stop) && SupportedBody(g, s.body))
    || (s.ForeachLoop? && SupportedExpr(g, s.items) && SupportedBody(g, s.body))
    || (s.If? && SupportedExpr(g, s.cond) && SupportedBody(g, s.then_))
    || (s.IfElse? && SupportedExpr(g, s.cond) && SupportedBody(g, s.then_) && SupportedBody(g, s.else_))
    || (s.TryCatch? && SupportedBody(g, s.body) && SupportedBody(g, s.handler))
    || (s.RunFn? && Callable(g, s.function_, |s.args|) && SupportedAll(g, s.args))
    || (s.RunValue? && SupportedExpr(g, s.closure) && SupportedAll(g, s.args))
  }

  predicate SupportedBody(g: Scope, ss: seq<Stmt>)
    decreases ss
  {
    forall i :: 0 <= i < |ss| ==> SupportedStmt(g, ss[i])
  }

  // ----- closures, nested ones included -----

  function LambdasExpr(e: Expr): nat
    decreases e
  {
    match e
    case Literal(_) => 0
    case Variable(_) => 0
    case Simple(_, args) => LambdasAll(args)
    case Reduce(_, src) => LambdasExpr(src)
    case ListOf(items) => LambdasAll(items)
    case Conditional(cond, then_, else_) => LambdasExpr(cond) + LambdasExpr(then_) + LambdasExpr(else_)
    case Or(left, right) => LambdasExpr(left) + LambdasExpr(right)
    case And(left, right) => LambdasExpr(left) + LambdasExpr(right)
    case CallFn(_, args, _) => LambdasAll(args)
    case CallValue(f, args) => LambdasExpr(f) + LambdasAll(args)
    case Lambda(_, _, body) => 1 + LambdasBody(body)
    case Map(f, list) => LambdasExpr(f) + LambdasExpr(list)
    case Keep(f, list) => LambdasExpr(f) + LambdasExpr(list)
    case FindFirst(f, list) => LambdasExpr(f) + LambdasExpr(list)
    case FoldWith(f, list) => LambdasExpr(f) + LambdasExpr(list)
  }

  function LambdasAll(es: seq<Expr>): nat
    decreases es
  {
    if es == [] then 0 else LambdasExpr(es[0]) + LambdasAll(es[1..])
  }

  function LambdasStmt(s: Stmt): nat
    decreases s
  {
    match s
    case SetVar(_, value) => LambdasExpr(value)
    case ChangeVar(_, value) => LambdasExpr(value)
    case DeclareLocals(_) => 0
    case Do(_, args) => LambdasAll(args)
    case ReturnValue(value) => LambdasExpr(value)
    case Warp(body) => LambdasBody(body)
    case InfLoop(body) => LambdasBody(body)
    case UntilLoop(cond, body) => LambdasExpr(cond) + LambdasBody(body)
    case Repeat(times, body) => LambdasExpr(times) + LambdasBody(body)
    case ForLoop(_, start, stop, body) => LambdasExpr(start) + LambdasExpr(stop) + LambdasBody(body)
    case ForeachLoop(_, items, body) => LambdasExpr(items) + LambdasBody(body)
    case If(cond, then_) => LambdasExpr(cond) + LambdasBody(then_)
    case IfElse(cond, then_, else_) => LambdasExpr(cond) + LambdasBody(then_) + LambdasBody(else_)
    case TryCatch(body, _, handler) => LambdasBody(body) + LambdasBody(handler)
    case RunFn(_, args, _) => LambdasAll(args)
    case RunValue(f, args) => LambdasExpr(f) + LambdasAll(args)
  }

  function LambdasBody(ss: seq<Stmt>): nat
    decreases ss
  {
    if ss == [] then 0 else LambdasStmt(ss[0]) + LambdasBody(ss[1..])
  }

  lemma {:induction false} LambdasSnoc(es: seq<Expr>, e: Expr)
    ensures LambdasAll(es + [e]) == LambdasAll(es) + LambdasExpr(e)
    decreases |es|
  {
    if es == [] {
      assert [] + [e] == [e] && [e][1..] == [];
    } else {
      assert (es + [e])[1..] == es[1..] + [e];
      LambdasSnoc(es[1..], e);
    }
  }

  lemma {:induction false} BodySnoc(ss: seq<Stmt>, s: Stmt)
    ensures LambdasBody(ss + [s]) == LambdasBody(ss) + LambdasStmt(s)
    decreases |ss|
  {
    if ss == [] {
      assert [] + [s] == [s] && [s][1..] == [];
    } else {
      assert (ss + [s])[1..] == ss[1..] + [s];
      BodySnoc(ss[1..], s);
    }
  }
}
