/** The layout of a construct depends only on its own stretch of code. */
module Frames {
  import opened Common
  import opened Bytecode
  import opened Machine
  import opened Ast
  import opened Source
  import opened Codegen

  lemma {:induction false} LitKept(code: seq<Slot>, code': seq<Slot>, v: Lit, pc: nat)
    requires LitAt(code, v, pc) && Agree(code, code', pc, LitLen(v))
    ensures LitAt(code', v, pc)
    decreases v
  {
    if v.ListLit? {
      LitsKept(code, code', v.items, pc);
    }
  }

  lemma {:induction false} LitsKept(code: seq<Slot>, code': seq<Slot>, vs: seq<Lit>, pc: nat)
    requires LitsAt(code, vs, pc) && Agree(code, code', pc, LitsLen(vs))
    ensures LitsAt(code', vs, pc)
    decreases vs
  {
    if vs != [] {
      LitKept(code, code', vs[0], pc);
      LitsKept(code, code', vs[1..], pc + LitLen(vs[0]));
    }
  }

  lemma AreKept(code: seq<Slot>, code': seq<Slot>, pc: nat, ins: seq<Instruction>)
    requires Are(code, pc, ins) && Agree(code, code', pc, |ins|)
    ensures Are(code', pc, ins)
  {
  }

  lemma {:induction false} ExprKept(g: Scope, code: seq<Slot>, code': seq<Slot>, e: Expr, pc: nat)
    requires ExprAt(g, code, e, pc) && Agree(code, code', pc, ExprLen(e))
    ensures ExprAt(g, code', e, pc)
    decreases ExprLen(e), 1
  {
    hide ExprAt, ExprLen;
    if e.Map? {
      MapKept(g, code, code', e, pc);
    } else if e.Keep? {
      KeepKept(g, code, code', e, pc);
    } else if e.FindFirst? {
      FindKept(g, code, code', e, pc);
    } else if e.FoldWith? {
      FoldKept(g, code, code', e, pc);
    } else if e.Or? || e.And? {
      EitherKept(g, code, code', e, pc);
    } else if e.Reduce? {
      ReduceKept(g, code, code', e, pc);
    } else if e.Literal? {
      LiteralKept(g, code, code', e, pc);
    } else if e.Conditional? {
      ConditionalKept(g, code, code', e, pc);
    } else if e.CallFn? || e.CallValue? {
      CallKept(g, code, code', e, pc);
    } else {
      PlainKept(g, code, code', e, pc);
    }
  }

  lemma LiteralKept(g: Scope, code: seq<Slot>, code': seq<Slot>, e: Expr, pc: nat)
    requires e.Literal? && ExprAt(g, code, e, pc) && Agree(code, code', pc, ExprLen(e))
    ensures ExprAt(g, code', e, pc)
  {
    hide LitAt, Agree;
    LitKept(code, code', e.v, pc);
  }

  lemma {:induction false} EitherKept(g: Scope, code: seq<Slot>, code': seq<Slot>, e: Expr, pc: nat)
    requires (e.Or? || e.And?) && ExprAt(g, code, e, pc) && Agree(code, code', pc, ExprLen(e))
    ensures ExprAt(g, code', e, pc)
    decreases ExprLen(e), 0
  {
    hide LitAt, Agree, ShortAt, Are, Arity, Callable, ExprsAt, ExprsLen, Is, LitLen, LitsAt, LitsLen, Lower;
    ShortKept(g, code, code', e.left, e.right, e.Or?, pc);
  }

  lemma {:induction false} PlainKept(g: Scope, code: seq<Slot>, code': seq<Slot>, e: Expr, pc: nat)
    requires ExprAt(g, code, e, pc) && Agree(code, code', pc, ExprLen(e))
    requires e.Variable? || e.Simple? || e.ListOf? || e.Lambda?
    ensures ExprAt(g, code', e, pc)
    decreases ExprLen(e), 0
  {
    hide LitAt, LitsAt, Are, Callable;
    if e.Simple? {
      ExprsKept(g, code, code', e.args, pc);
    } else if e.ListOf? {
      ExprsKept(g, code, code', e.items, pc);
    }
  }

  lemma {:induction false} CallKept(g: Scope, code: seq<Slot>, code': seq<Slot>, e: Expr, pc: nat)
    requires ExprAt(g, code, e, pc) && Agree(code, code', pc, ExprLen(e)) && (e.CallFn? || e.CallValue?)
    ensures ExprAt(g, code', e, pc)
    decreases ExprLen(e), 0
  {
    hide ExprAt, ExprLen, Callable;
    if e.CallFn? {
      CallFnParts(g, code, e.function_, e.args, e.upvars, pc);
      CallFnParts(g, code', e.function_, e.args, e.upvars, pc);
      ExprsKept(g, code, code', e.args, pc + |e.upvars|);
    } else {
      CallValueParts(g, code, e.closure, e.args, pc);
      CallValueParts(g, code', e.closure, e.args, pc);
      ExprKept(g, code, code', e.closure, pc);
      ExprsKept(g, code, code', e.args, pc + ExprLen(e.closure));
    }
  }

  lemma {:induction false} ConditionalKept(g: Scope, code: seq<Slot>, code': seq<Slot>, e: Expr, pc: nat)
    requires e.Conditional? && ExprAt(g, code, e, pc) && Agree(code, code', pc, ExprLen(e))
    ensures ExprAt(g, code', e, pc)
    decreases ExprLen(e), 0
  {
    hide ExprAt, ExprLen;
    ConditionalParts(g, code, e.cond, e.then_, e.else_, pc);
    ConditionalParts(g, code', e.cond, e.then_, e.else_, pc);
    var test := pc + ExprLen(e.cond);
    ExprKept(g, code, code', e.cond, pc);
    ExprKept(g, code, code', e.then_, test + 1);
    ExprKept(g, code, code', e.else_, test + 2 + ExprLen(e.then_));
  }

  lemma {:induction false} ReduceKept(g: Scope, code: seq<Slot>, code': seq<Slot>, e: Expr, pc: nat)
    requires e.Reduce? && ExprAt(g, code, e, pc) && Agree(code, code', pc, ExprLen(e))
    ensures ExprAt(g, code', e, pc)
    decreases ExprLen(e), 0
  {
    hide LitAt, Are, Callable;
    if e.src.ListOf? {
      ExprsKept(g, code, code', e.src.items, pc);
    } else if e.src.Literal? && e.src.v.ListLit? {
      LitsKept(code, code', e.src.v.items, pc);
    } else {
      ExprKept(g, code, code', e.src, pc);
    }
  }

  lemma {:induction false} FoldKept(g: Scope, code: seq<Slot>, code': seq<Slot>, e: Expr, pc: nat)
    requires e.FoldWith? && ExprAt(g, code, e, pc) && Agree(code, code', pc, ExprLen(e))
    ensures ExprAt(g, code', e, pc)
    decreases ExprLen(e), 0
  {
    hide ExprAt, ExprLen, Are;
    FoldParts(g, code, e.f, e.list, pc);
    FoldParts(g, code', e.f, e.list, pc);
    var a := pc + ExprLen(e.list);
    ExprKept(g, code, code', e.list, pc);
    ExprKept(g, code, code', e.f, a + 1);
    AreKept(code, code', a + 1 + ExprLen(e.f), FoldCode(a + 1 + ExprLen(e.f)));
  }

  lemma {:induction false} MapKept(g: Scope, code: seq<Slot>, code': seq<Slot>, e: Expr, pc: nat)
    requires e.Map? && ExprAt(g, code, e, pc) && Agree(code, code', pc, ExprLen(e))
    ensures ExprAt(g, code', e, pc)
    decreases ExprLen(e), 0
  {
    hide ExprAt, ExprLen, Are;
    MapParts(g, code, e.f, e.list, pc);
    MapParts(g, code', e.f, e.list, pc);
    var a := pc + ExprLen(e.f);
    ExprKept(g, code, code', e.f, pc);
    ExprKept(g, code, code', e.list, a);
    AreKept(code, code', a + ExprLen(e.list), MapCode(a + ExprLen(e.list)));
  }

  lemma {:induction false} KeepKept(g: Scope, code: seq<Slot>, code': seq<Slot>, e: Expr, pc: nat)
    requires e.Keep? && ExprAt(g, code, e, pc) && Agree(code, code', pc, ExprLen(e))
    ensures ExprAt(g, code', e, pc)
    decreases ExprLen(e), 0
  {
    hide ExprAt, ExprLen, Are;
    KeepParts(g, code, e.f, e.list, pc);
    KeepParts(g, code', e.f, e.list, pc);
    var a := pc + ExprLen(e.f);
    ExprKept(g, code, code', e.f, pc);
    ExprKept(g, code, code', e.list, a);
    AreKept(code, code', a + ExprLen(e.list), KeepCode(a + ExprLen(e.list)));
  }

  lemma {:induction false} FindKept(g: Scope, code: seq<Slot>, code': seq<Slot>, e: Expr, pc: nat)
    requires e.FindFirst? && ExprAt(g, code, e, pc) && Agree(code, code', pc, ExprLen(e))
    ensures ExprAt(g, code', e, pc)
    decreases ExprLen(e), 0
  {
    hide ExprAt, ExprLen, Are;
    FindParts(g, code, e.f, e.list, pc);
    FindParts(g, code', e.f, e.list, pc);
    var a := pc + ExprLen(e.f);
    ExprKept(g, code, code', e.f, pc);
    ExprKept(g, code, code', e.list, a);
    AreKept(code, code', a + ExprLen(e.list), FindCode(a + ExprLen(e.list)));
  }

  lemma {:induction false} ShortKept(g: Scope, code: seq<Slot>, code': seq<Slot>, left: Expr, right: Expr,
                                     decides: bool, pc: nat)
    requires ShortAt(g, code, left, right, decides, pc) && Agree(code, code', pc, ExprLen(left) + ExprLen(right) + 4)
    ensures ShortAt(g, code', left, right, decides, pc)
    decreases ExprLen(left) + ExprLen(right), 2
  {
    hide ExprAt, ExprLen, ShortAt, Are;
    ShortParts(g, code, left, right, decides, pc);
    ShortParts(g, code', left, right, decides, pc);
    var aft := pc + ExprLen(left) + 3 + ExprLen(right);
    ExprKept(g, code, code', left, pc);
    ExprKept(g, code, code', right, pc + ExprLen(left) + 3);
    AreKept(code, code', pc + ExprLen(left), ShortCode(aft, decides));
  }

  lemma {:induction false} ExprsKept(g: Scope, code: seq<Slot>, code': seq<Slot>, es: seq<Expr>, pc: nat)
    requires ExprsAt(g, code, es, pc) && Agree(code, code', pc, ExprsLen(es))
    ensures ExprsAt(g, code', es, pc)
    decreases ExprsLen(es), |es| + 2
  {
    hide ExprAt, ExprLen;
    if es != [] {
      ExprKept(g, code, code', es[0], pc);
      ExprsKept(g, code, code', es[1..], pc + ExprLen(es[0]));
    }
  }

  lemma {:induction false} StmtKept(g: Scope, code: seq<Slot>, code': seq<Slot>, s: Stmt, pc: nat)
    requires StmtAt(g, code, s, pc) && Agree(code, code', pc, StmtLen(s))
    ensures StmtAt(g, code', s, pc)
    decreases StmtLen(s), 1
  {
    hide StmtAt, StmtLen;
    if s.ForLoop? {
      ForKept(g, code, code', s, pc);
    } else if s.Repeat? {
      RepeatKept(g, code, code', s, pc);
    } else if s.ForeachLoop? {
      ForeachKept(g, code, code', s, pc);
    } else if s.UntilLoop? || s.InfLoop? {
      LoopKept(g, code, code', s, pc);
    } else if s.IfElse? {
      IfElseKept(g, code, code', s, pc);
    } else if s.TryCatch? {
      TryKept(g, code, code', s, pc);
    } else if s.If? || s.Warp? {
      BlockKept(g, code, code', s, pc);
    } else if s.RunFn? || s.RunValue? {
      RunKept(g, code, code', s, pc);
    } else {
      SimpleKept(g, code, code', s, pc);
    }
  }

  lemma {:induction false} SimpleKept(g: Scope, code: seq<Slot>, code': seq<Slot>, s: Stmt, pc: nat)
    requires StmtAt(g, code, s, pc) && Agree(code, code', pc, StmtLen(s))
    requires s.SetVar? || s.ChangeVar? || s.DeclareLocals? || s.Do? || s.ReturnValue?
    ensures StmtAt(g, code', s, pc)
    decreases StmtLen(s), 0
  {
    hide ExprAt, ExprsAt, ExprLen, ExprsLen, StmtsAt, ForAt, Callable;
    if s.Do? {
      ExprsKept(g, code, code', s.args, pc);
    } else if !s.DeclareLocals? {
      ExprKept(g, code, code', s.value, pc);
    }
  }

  lemma {:induction false} RunKept(g: Scope, code: seq<Slot>, code': seq<Slot>, s: Stmt, pc: nat)
    requires StmtAt(g, code, s, pc) && Agree(code, code', pc, StmtLen(s)) && (s.RunFn? || s.RunValue?)
    ensures StmtAt(g, code', s, pc)
    decreases StmtLen(s), 0
  {
    hide ExprAt, ExprsAt, ExprLen, ExprsLen, StmtsAt, ForAt, Callable;
    if s.RunFn? {
      ExprsKept(g, code, code', s.args, pc + |s.upvars|);
    } else {
      ExprKept(g, code, code', s.closure, pc);
      ExprsKept(g, code, code', s.args, pc + ExprLen(s.closure));
    }
  }

  lemma {:induction false} BlockKept(g: Scope, code: seq<Slot>, code': seq<Slot>, s: Stmt, pc: nat)
    requires StmtAt(g, code, s, pc) && Agree(code, code', pc, StmtLen(s)) && (s.If? || s.Warp?)
    ensures StmtAt(g, code', s, pc)
    decreases StmtLen(s), 0
  {
    hide ExprAt, ExprsAt, ExprLen, StmtsAt, StmtsLen, ForAt, Callable;
    if s.Warp? {
      StmtsKept(g, code, code', s.body, pc + 1);
    } else {
      ExprKept(g, code, code', s.cond, pc);
      StmtsKept(g, code, code', s.then_, pc + ExprLen(s.cond) + 1);
    }
  }

  lemma {:induction false} IfElseKept(g: Scope, code: seq<Slot>, code': seq<Slot>, s: Stmt, pc: nat)
    requires s.IfElse? && StmtAt(g, code, s, pc) && Agree(code, code', pc, StmtLen(s))
    ensures StmtAt(g, code', s, pc)
    decreases StmtLen(s), 0
  {
    hide ExprAt, ExprsAt, ExprLen, StmtsAt, StmtsLen, ForAt, Callable;
    var a := pc + ExprLen(s.cond);
    ExprKept(g, code, code', s.cond, pc);
    StmtsKept(g, code, code', s.then_, a + 1);
    StmtsKept(g, code, code', s.else_, a + 2 + StmtsLen(s.then_));
  }

  lemma {:induction false} TryKept(g: Scope, code: seq<Slot>, code': seq<Slot>, s: Stmt, pc: nat)
    requires s.TryCatch? && StmtAt(g, code, s, pc) && Agree(code, code', pc, StmtLen(s))
    ensures StmtAt(g, code', s, pc)
    decreases StmtLen(s), 0
  {
    hide ExprAt, ExprsAt, ExprLen, StmtsAt, StmtsLen, ForAt, Callable;
    StmtsKept(g, code, code', s.body, pc + 1);
    StmtsKept(g, code, code', s.handler, pc + 4 + StmtsLen(s.body));
  }

  lemma {:induction false} LoopKept(g: Scope, code: seq<Slot>, code': seq<Slot>, s: Stmt, pc: nat)
    requires StmtAt(g, code, s, pc) && Agree(code, code', pc, StmtLen(s)) && (s.UntilLoop? || s.InfLoop?)
    ensures StmtAt(g, code', s, pc)
    decreases StmtLen(s), 0
  {
    hide ExprAt, ExprsAt, ExprLen, StmtsAt, StmtsLen, ForAt, Callable;
    if s.InfLoop? {
      StmtsKept(g, code, code', s.body, pc);
    } else {
      ExprKept(g, code, code', s.cond, pc);
      StmtsKept(g, code, code', s.body, pc + ExprLen(s.cond) + 1);
    }
  }

  lemma {:induction false} RepeatKept(g: Scope, code: seq<Slot>, code': seq<Slot>, s: Stmt, pc: nat)
    requires s.Repeat? && StmtAt(g, code, s, pc) && Agree(code, code', pc, StmtLen(s))
    ensures StmtAt(g, code', s, pc)
    decreases StmtLen(s), 0
  {
    hide ExprAt, ExprsAt, ExprLen, StmtsAt, StmtsLen, ForAt, Callable;
    ExprKept(g, code, code', s.times, pc);
    StmtsKept(g, code, code', s.body, pc + ExprLen(s.times) + 4);
  }

  lemma {:induction false} ForeachKept(g: Scope, code: seq<Slot>, code': seq<Slot>, s: Stmt, pc: nat)
    requires s.ForeachLoop? && StmtAt(g, code, s, pc) && Agree(code, code', pc, StmtLen(s))
    ensures StmtAt(g, code', s, pc)
    decreases StmtLen(s), 0
  {
    hide ExprAt, ExprsAt, ExprLen, StmtsAt, StmtsLen, ForAt, Callable;
    ExprKept(g, code, code', s.items, pc + 1);
    StmtsKept(g, code, code', s.body, pc + ExprLen(s.items) + 5);
  }

  lemma {:induction false} ForKept(g: Scope, code: seq<Slot>, code': seq<Slot>, s: Stmt, pc: nat)
    requires s.ForLoop? && StmtAt(g, code, s, pc) && Agree(code, code', pc, StmtLen(s))
    ensures StmtAt(g, code', s, pc)
    decreases StmtLen(s), 0
  {
    hide ExprAt, ExprLen, StmtsAt, StmtsLen, RangeAt, RoundsAt;
    RangeKept(g, code, code', s.v, s.start, s.stop, pc);
    RoundsKept(g, code, code', s.v.trans, s.body, pc + 15 + ExprLen(s.start) + ExprLen(s.stop));
  }

  lemma {:induction false} RangeKept(g: Scope, code: seq<Slot>, code': seq<Slot>, v: Var, start: Expr, stop: Expr,
                                     pc: nat)
    requires RangeAt(g, code, v, start, stop, pc) && Agree(code, code', pc, ExprLen(start) + ExprLen(stop) + 15)
    ensures RangeAt(g, code', v, start, stop, pc)
    decreases ExprLen(start) + ExprLen(stop), 2
  {
    hide *;
    var n := ExprLen(start) + ExprLen(stop) + 15;
    var a := pc + 1 + ExprLen(start);
    var b := a + 1 + ExprLen(stop);
    RangeSplit(g, code, v, start, stop, pc);
    PreludeSize(b + 1);
    AgreeSlot(code, code', pc, n, pc);
    AgreeSlot(code, code', pc, n, a);
    AgreeSlot(code, code', pc, n, b);
    OneIs(code', pc, DeclareLocal(v.name));
    OneIs(code', a, ToNum);
    OneIs(code', b, ToNum);
    AgreePart(code, code', pc, n, pc + 1, ExprLen(start));
    ExprKept(g, code, code', start, pc + 1);
    AgreePart(code, code', pc, n, a + 1, ExprLen(stop));
    ExprKept(g, code, code', stop, a + 1);
    AgreePart(code, code', pc, n, b + 1, 12);
    AreKept(code, code', b + 1, ForPrelude(b + 1));
    RangeParts(g, code', v, start, stop, pc, a, b);
  }

  lemma RangeSplit(g: Scope, t: seq<Slot>, v: Var, start: Expr, stop: Expr, pc: nat)
    requires RangeAt(g, t, v, start, stop, pc)
    ensures var a := pc + 1 + ExprLen(start);
            var b := a + 1 + ExprLen(stop);
            && b < |t| && t[pc] == Ins(DeclareLocal(v.name)) && ExprAt(g, t, start, pc + 1) && t[a] == Ins(ToNum)
            && ExprAt(g, t, stop, a + 1) && t[b] == Ins(ToNum) && Are(t, b + 1, ForPrelude(b + 1))
  {
    hide Are, ExprAt, ExprLen;
  }

  lemma PreludeSize(q: nat)
    ensures |ForPrelude(q)| == 12
  {
  }

  lemma {:induction false} RoundsKept(g: Scope, code: seq<Slot>, code': seq<Slot>, trans: Str, body: seq<Stmt>,
                                      top: nat)
    requires RoundsAt(g, code, trans, body, top) && Agree(code, code', top, StmtsLen(body) + 18)
    ensures RoundsAt(g, code', trans, body, top)
    decreases StmtsLen(body), |body| + 4
  {
    hide StmtsAt, StmtsLen, Are;
    var d := top + 6 + StmtsLen(body);
    StmtsKept(g, code, code', body, top + 6);
    AreKept(code, code', top, ForHead(d, trans));
    AreKept(code, code', d, ForTail(top));
  }

  lemma {:induction false} StmtsKept(g: Scope, code: seq<Slot>, code': seq<Slot>, ss: seq<Stmt>, pc: nat)
    requires StmtsAt(g, code, ss, pc) && Agree(code, code', pc, StmtsLen(ss))
    ensures StmtsAt(g, code', ss, pc)
    decreases StmtsLen(ss), |ss| + 2
  {
    hide StmtAt, StmtLen;
    if ss != [] {
      StmtKept(g, code, code', ss[0], pc);
      StmtsKept(g, code, code', ss[1..], pc + StmtLen(ss[0]));
    }
  }

  lemma BodyKept(g: Scope, code: seq<Slot>, code': seq<Slot>, upvars: seq<Str>, body: seq<Stmt>, pc: nat)
    requires BodyAt(g, code, upvars, body, pc) && Agree(code, code', pc, BodyLen(upvars, body))
    ensures BodyAt(g, code', upvars, body, pc)
  {
    hide StmtsAt, StmtsLen;
    StmtsKept(g, code, code', body, pc + |upvars|);
  }

  // ----- sequences grow at the end -----

  lemma {:induction false} ExprsSnoc(g: Scope, code: seq<Slot>, es: seq<Expr>, e: Expr, pc: nat)
    ensures ExprsLen(es + [e]) == ExprsLen(es) + ExprLen(e)
    ensures ExprsAt(g, code, es, pc) && ExprAt(g, code, e, pc + ExprsLen(es)) ==> ExprsAt(g, code, es + [e], pc)
    decreases |es|
  {
    hide ExprAt, ExprLen;
    if es == [] {
      assert ExprsLen([e][1..]) == 0;
      assert [] + [e] == [e];
    } else {
      assert (es + [e])[1..] == es[1..] + [e];
      ExprsSnoc(g, code, es[1..], e, pc + ExprLen(es[0]));
    }
  }

  lemma {:induction false} StmtsSnoc(g: Scope, code: seq<Slot>, ss: seq<Stmt>, s: Stmt, pc: nat)
    ensures StmtsLen(ss + [s]) == StmtsLen(ss) + StmtLen(s)
    ensures StmtsAt(g, code, ss, pc) && StmtAt(g, code, s, pc + StmtsLen(ss)) ==> StmtsAt(g, code, ss + [s], pc)
    decreases |ss|
  {
    hide StmtAt, StmtLen;
    if ss == [] {
      assert StmtsLen([s][1..]) == 0;
      assert [] + [s] == [s];
    } else {
      assert (ss + [s])[1..] == ss[1..] + [s];
      StmtsSnoc(g, code, ss[1..], s, pc + StmtLen(ss[0]));
    }
  }

  lemma {:induction false} LitsSnoc(code: seq<Slot>, vs: seq<Lit>, v: Lit, pc: nat)
    ensures LitsLen(vs + [v]) == LitsLen(vs) + LitLen(v)
    ensures LitsAt(code, vs, pc) && LitAt(code, v, pc + LitsLen(vs)) ==> LitsAt(code, vs + [v], pc)
    decreases |vs|
  {
    hide LitAt, LitLen;
    if vs == [] {
      assert LitsLen([v][1..]) == 0;
      assert [] + [v] == [v];
    } else {
      assert (vs + [v])[1..] == vs[1..] + [v];
      LitsSnoc(code, vs[1..], v, pc + LitLen(vs[0]));
    }
  }
}
