/** Compiled code does what the evaluator says: one simulation lemma per construct. Each takes the
    layout of the construct's code at `pc` and runs the interpreter from there, with anything at all
    already on the value stack. */
module Correctness {
  import opened Common
  import opened Bytecode
  import opened Values
  import opened Elementwise
  import opened Machine
  import opened Tokens
  import opened Ast
  import opened Source
  import opened Codegen
  import opened Simulation
  import opened Rounds
  import opened LoopRounds
  import opened Calls

  function Spent(fuel: nat): nat {
    if fuel == 0 then 0 else fuel - 1
  }

  // ----- literals -----

  lemma {:induction false} SimLit(I: Image, base: State, v: Lit, pc: nat, floor: seq<Value>, st: St,
                                  clo: seq<Clo<nat>>, fuel: nat) returns (n: nat)
    requires base.calls != [] && Filled(I) && Tied(I, clo, st.closures) && LitAt(I.slots, v, pc)
    ensures Meets(I, base, At(base, pc, floor, st, clo), floor, pc + LitLen(v), n, clo, fuel,
                  OneGoal(EvalLit(I.p, v, st)))
    ensures match EvalLit(I.p, v, st) case Done(_, s) => s.closures == st.closures case _ => true
    decreases v, 0
  {
    hide Filled, Tied, At, Meets, Prim, On, Run, Step;
    assert floor + [] == floor;
    match v
    case NumLit(bits) =>
      n := OpMeets(I, base, pc, floor, PushNumber(bits), [], st, clo, fuel);
    case TxtLit(text) =>
      assert Is(I.slots, pc, PushString(text));
      n := LiteralMeets(I, base, pc, floor, PushString(text), Txt(text), st, clo, fuel);
    case BoolLit(b) =>
      n := LiteralMeets(I, base, pc, floor, PushBool(b), Bool(b), st, clo, fuel);
    case ListLit(items) =>
      n := SimListLit(I, base, items, pc, floor, st, clo, fuel);
  }

  lemma {:induction false} SimListLit(I: Image, base: State, items: seq<Lit>, pc: nat, floor: seq<Value>, st: St,
                                      clo: seq<Clo<nat>>, fuel: nat) returns (n: nat)
    requires base.calls != [] && Filled(I) && Tied(I, clo, st.closures) && LitAt(I.slots, ListLit(items), pc)
    ensures Meets(I, base, At(base, pc, floor, st, clo), floor, pc + LitLen(ListLit(items)), n, clo, fuel,
                  OneGoal(EvalLit(I.p, ListLit(items), st)))
    ensures match EvalLit(I.p, ListLit(items), st) case Done(_, s) => s.closures == st.closures case _ => true
    decreases items, 1
  {
    hide Filled, Tied, At, Meets, Prim, On, Run, Step, EvalLits, LitsAt, Is;
    var s := At(base, pc, floor, st, clo);
    var q := pc + LitsLen(items);
    Start(I, base, pc, floor, st, clo);
    n := SimLits(I, base, items, pc, floor, st, clo, fuel);
    var o := EvalLits(I.p, items, st);
    Continue(I, s, 0, base, pc, floor, st, clo, q, n, clo, fuel, ManyGoal(o), floor, q + 1);
    if o.Done? {
      var ins := Variadic(MakeList, Fixed(|o.v|));
      var m := OpMeets(I, base, q, floor, ins, o.v, o.st, clo, fuel);
      OnMeets(I, s, n, base, q, floor + o.v, o.st, clo, base, floor, q + 1, m, clo, fuel, fuel,
              OneGoal(Single(ApplyPrim(I.p, ins, o.v, o.st))));
      n := n + m;
    }
  }

  lemma LiteralMeets(I: Image, base: State, pc: nat, floor: seq<Value>, ins: Instruction, v: Value, st: St,
                     clo: seq<Clo<nat>>, fuel: nat) returns (n: nat)
    requires base.calls != [] && Filled(I) && Tied(I, clo, st.closures) && Is(I.slots, pc, ins)
    requires (ins.PushString? && v == Txt(ins.text)) || (ins.PushBool? && v == Bool(ins.flag))
    ensures Meets(I, base, At(base, pc, floor, st, clo), floor, pc + 1, n, clo, fuel, Done(Leaves([v]), st))
  {
    hide Filled, Tied, At, Meets, Run, BinaryOn, UnaryOn, Combine, Relates, OnList;
    assert floor + [] == floor;
    PrimGoes(I, base, pc, floor, ins, [], [v], st.heap, st, clo);
    n := 1;
    Lands(I, base, At(base, pc, floor, st, clo), floor, [v], pc + 1, 1, clo, fuel, st);
  }

  lemma {:induction false} SimLits(I: Image, base: State, vs: seq<Lit>, pc: nat, floor: seq<Value>, st: St,
                                   clo: seq<Clo<nat>>, fuel: nat) returns (n: nat)
    requires base.calls != [] && Filled(I) && Tied(I, clo, st.closures) && LitsAt(I.slots, vs, pc)
    ensures Meets(I, base, At(base, pc, floor, st, clo), floor, pc + LitsLen(vs), n, clo, fuel,
                  ManyGoal(EvalLits(I.p, vs, st)))
    ensures match EvalLits(I.p, vs, st) case Done(_, s) => s.closures == st.closures case _ => true
    decreases vs, 0
  {
    hide Filled, Tied, At, Meets, On, EvalLit, LitAt, LitLen;
    var s := At(base, pc, floor, st, clo);
    assert floor + [] == floor;
    Start(I, base, pc, floor, st, clo);
    if vs == [] {
      n := 0;
      OnLands(I, s, 0, base, pc, floor, [], st, clo, fuel);
    } else {
      var q := pc + LitLen(vs[0]);
      var end := pc + LitsLen(vs);
      n := SimLit(I, base, vs[0], pc, floor, st, clo, fuel);
      var o := EvalLit(I.p, vs[0], st);
      Continue(I, s, 0, base, pc, floor, st, clo, q, n, clo, fuel, OneGoal(o), floor, end);
      if o.Done? {
        var m := SimLits(I, base, vs[1..], q, floor + [o.v], o.st, clo, fuel);
        var r := EvalLits(I.p, vs[1..], o.st);
        Continue(I, s, n, base, q, floor + [o.v], o.st, clo, end, m, clo, fuel, ManyGoal(r), floor, end);
        n := n + m;
        if r.Done? {
          assert floor + [o.v] + r.v == floor + ([o.v] + r.v);
          OnLands(I, s, n, base, end, floor, [o.v] + r.v, r.st, clo, fuel);
        }
      }
    }
  }

  // ----- expressions -----

  lemma {:induction false} SimExpr(I: Image, c: Ctx, base: State, e: Expr, pc: nat, floor: seq<Value>, st: St,
                                   clo: seq<Clo<nat>>, fuel: nat)
    returns (n: nat, clo': seq<Clo<nat>>)
    requires Ready(I, c, base) && Tied(I, clo, st.closures) && ExprAt(I.G(c), I.slots, e, pc)
    ensures Meets(I, base, At(base, pc, floor, st, clo), floor, pc + ExprLen(e), n, clo', fuel,
                  OneGoal(Eval(I.p, fuel, c, e, st)))
    decreases fuel, ExprLen(e), 2
  {
    hide *;
    match e
    case Simple(_, _) => n, clo' := SimSimple(I, c, base, e, pc, floor, st, clo, fuel);
    case Reduce(_, _) => n, clo' := SimReduce(I, c, base, e, pc, floor, st, clo, fuel);
    case Conditional(_, _, _) => n, clo' := SimConditional(I, c, base, e, pc, floor, st, clo, fuel);
    case CallFn(name, args, upvars) => n, clo' := SimCallFn(I, c, base, name, args, upvars, pc, floor, st, clo, fuel);
    case CallValue(f, args) => n, clo' := SimCallValue(I, c, base, f, args, pc, floor, st, clo, fuel);
    case Map(f, list) => n, clo' := SimMap(I, c, base, f, list, pc, floor, st, clo, fuel);
    case Keep(f, list) => n, clo' := SimKeep(I, c, base, f, list, pc, floor, st, clo, fuel);
    case FindFirst(f, list) => n, clo' := SimFind(I, c, base, f, list, pc, floor, st, clo, fuel);
    case FoldWith(f, list) => n, clo' := SimFold(I, c, base, f, list, pc, floor, st, clo, fuel);
    case _ => n, clo' := SimBasic(I, c, base, e, pc, floor, st, clo, fuel);
  }

  lemma {:induction false} SimBasic(I: Image, c: Ctx, base: State, e: Expr, pc: nat, floor: seq<Value>, st: St,
                                    clo: seq<Clo<nat>>, fuel: nat)
    returns (n: nat, clo': seq<Clo<nat>>)
    requires Ready(I, c, base) && Tied(I, clo, st.closures) && ExprAt(I.G(c), I.slots, e, pc)
    requires e.Literal? || e.Variable? || e.ListOf? || e.Or? || e.And? || e.Lambda?
    ensures Meets(I, base, At(base, pc, floor, st, clo), floor, pc + ExprLen(e), n, clo', fuel,
                  OneGoal(Eval(I.p, fuel, c, e, st)))
    decreases fuel, ExprLen(e), 1
  {
    hide Filled, Fits, Tied, At, Meets, Prim, LitAt, ExprsAt, Are, EvalAll, CallNamed, CallClosureValue, ApplyPrim;
    hide Arity, Callable, Capture, FoldWork, EvalLits, EvalReduceDynamic, EvalTest, EvalWork, FindLoop, FoldLoop;
    hide KeepLoop, LitsAt, LitsLen, Lower, MapLoop;
    if e.Literal? {
      n := SimLit(I, base, e.v, pc, floor, st, clo, fuel);
      clo' := clo;
    } else if e.Variable? {
      n := PushVariableMeets(I, base, pc, floor, e.name, st, clo, fuel);
      clo' := clo;
    } else if e.ListOf? {
      n, clo' := SimItems(I, c, base, MakeList, e.items, pc, floor, st, clo, fuel);
    } else if e.Lambda? {
      n, clo' := LambdaMeets(I, c, base, e.params, e.captures, e.body, pc, floor, st, clo, fuel);
    } else {
      n, clo' := SimShort(I, c, base, e.left, e.right, e.Or?, pc, floor, st, clo, fuel);
    }
  }

  lemma {:induction false} SimExprs(I: Image, c: Ctx, base: State, es: seq<Expr>, pc: nat, floor: seq<Value>, st: St,
                                    clo: seq<Clo<nat>>, fuel: nat)
    returns (n: nat, clo': seq<Clo<nat>>)
    requires Ready(I, c, base) && Tied(I, clo, st.closures) && ExprsAt(I.G(c), I.slots, es, pc)
    ensures Meets(I, base, At(base, pc, floor, st, clo), floor, pc + ExprsLen(es), n, clo', fuel,
                  ManyGoal(EvalAll(I.p, fuel, c, es, st)))
    decreases fuel, ExprsLen(es), |es| + 3
  {
    hide Filled, Fits, Tied, At, Meets, On, Eval, ExprAt, ExprLen;
    var s := At(base, pc, floor, st, clo);
    assert floor + [] == floor;
    Start(I, base, pc, floor, st, clo);
    if es == [] {
      n, clo' := 0, clo;
      OnLands(I, s, 0, base, pc, floor, [], st, clo, fuel);
    } else {
      var q := pc + ExprLen(es[0]);
      var end := pc + ExprsLen(es);
      n, clo' := SimExpr(I, c, base, es[0], pc, floor, st, clo, fuel);
      var o := Eval(I.p, fuel, c, es[0], st);
      Continue(I, s, 0, base, pc, floor, st, clo, q, n, clo', fuel, OneGoal(o), floor, end);
      if o.Done? {
        var clo1 := clo';
        var m;
        m, clo' := SimExprs(I, c, base, es[1..], q, floor + [o.v], o.st, clo1, fuel);
        var r := EvalAll(I.p, fuel, c, es[1..], o.st);
        Continue(I, s, n, base, q, floor + [o.v], o.st, clo1, end, m, clo', fuel, ManyGoal(r), floor, end);
        n := n + m;
        if r.Done? {
          assert floor + [o.v] + r.v == floor + ([o.v] + r.v);
          OnLands(I, s, n, base, end, floor, [o.v] + r.v, r.st, clo', fuel);
        }
      }
    }
  }

  /** A sub-expression run where the code before it ended; the standard step of every case below. */
  lemma {:induction false} NextExpr(I: Image, c: Ctx, base: State, s: State, a: nat, e: Expr, pc: nat,
                                    values: seq<Value>, st: St, clo: seq<Clo<nat>>, fuel: nat, floor: seq<Value>,
                                    next: nat) returns (n: nat, clo': seq<Clo<nat>>)
    requires Ready(I, c, base) && Tied(I, clo, st.closures) && ExprAt(I.G(c), I.slots, e, pc)
    requires On(I, s, a, base, pc, values, st, clo) && floor <= values
    ensures match Eval(I.p, fuel, c, e, st)
            case Done(v, st') =>
              On(I, s, n, base, pc + ExprLen(e), values + [v], st', clo') && Tied(I, clo', st'.closures)
            case o => Meets(I, base, s, floor, next, n, clo', fuel, OneGoal(o))
    decreases fuel, ExprLen(e), 3
  {
    hide *;
    n, clo' := SimExpr(I, c, base, e, pc, values, st, clo, fuel);
    var o := Eval(I.p, fuel, c, e, st);
    OneEscapes(o);
    Continue(I, s, a, base, pc, values, st, clo, pc + ExprLen(e), n, clo', fuel, OneGoal(o), floor, next);
    n := a + n;
  }

  lemma OneEscapes(o: Out<Value>)
    ensures Escapes(OneGoal(o)) == !o.Done?
    ensures match o case Done(v, st) => OneGoal(o) == Done(Leaves([v]), st) case _ => !OneGoal(o).Done?
  {
  }

  lemma ManyEscapes(o: Out<seq<Value>>)
    ensures Escapes(ManyGoal(o)) == !o.Done?
    ensures match o case Done(vs, st) => ManyGoal(o) == Done(Leaves(vs), st) case _ => !ManyGoal(o).Done?
  {
  }

  lemma {:induction false} NextExprs(I: Image, c: Ctx, base: State, s: State, a: nat, es: seq<Expr>, pc: nat,
                                     values: seq<Value>, st: St, clo: seq<Clo<nat>>, fuel: nat, floor: seq<Value>,
                                     next: nat) returns (n: nat, clo': seq<Clo<nat>>)
    requires Ready(I, c, base) && Tied(I, clo, st.closures) && ExprsAt(I.G(c), I.slots, es, pc)
    requires On(I, s, a, base, pc, values, st, clo) && floor <= values
    ensures match EvalAll(I.p, fuel, c, es, st)
            case Done(vs, st') =>
              On(I, s, n, base, pc + ExprsLen(es), values + vs, st', clo') && Tied(I, clo', st'.closures)
            case o => Meets(I, base, s, floor, next, n, clo', fuel, ManyGoal(o))
    decreases fuel, ExprsLen(es), |es| + 4
  {
    hide *;
    n, clo' := SimExprs(I, c, base, es, pc, values, st, clo, fuel);
    var o := EvalAll(I.p, fuel, c, es, st);
    ManyEscapes(o);
    Continue(I, s, a, base, pc, values, st, clo, pc + ExprsLen(es), n, clo', fuel, ManyGoal(o), floor, next);
    n := a + n;
  }

  lemma {:induction false} SimSimple(I: Image, c: Ctx, base: State, e: Expr, pc: nat, floor: seq<Value>, st: St,
                                     clo: seq<Clo<nat>>, fuel: nat)
    returns (n: nat, clo': seq<Clo<nat>>)
    requires Ready(I, c, base) && Tied(I, clo, st.closures) && e.Simple? && ExprAt(I.G(c), I.slots, e, pc)
    ensures Meets(I, base, At(base, pc, floor, st, clo), floor, pc + ExprLen(e), n, clo', fuel,
                  OneGoal(Eval(I.p, fuel, c, e, st)))
    decreases fuel, ExprLen(e), 0
  {
    hide Filled, Fits, Tied, At, Meets, On, Prim, LitAt, ExprsAt, ShortAt, Are, EvalAll, CallNamed, CallClosureValue;
    var s := At(base, pc, floor, st, clo);
    var q := pc + ExprsLen(e.args);
    Start(I, base, pc, floor, st, clo);
    n, clo' := NextExprs(I, c, base, s, 0, e.args, pc, floor, st, clo, fuel, floor, q + 1);
    var o := EvalAll(I.p, fuel, c, e.args, st);
    if o.Done? {
      var m := OpMeets(I, base, q, floor, Lower(e.op), o.v, o.st, clo', fuel);
      OnMeets(I, s, n, base, q, floor + o.v, o.st, clo', base, floor, q + 1, m, clo', fuel, fuel,
              OneGoal(Single(ApplyPrim(I.p, Lower(e.op), o.v, o.st))));
      n := n + m;
    }
  }

  /** Operands spelled out, then a variadic operator over that many. */
  lemma {:induction false} SimItems(I: Image, c: Ctx, base: State, vop: VariadicOp, items: seq<Expr>, pc: nat,
                                    floor: seq<Value>, st: St, clo: seq<Clo<nat>>, fuel: nat)
    returns (n: nat, clo': seq<Clo<nat>>)
    requires Ready(I, c, base) && Tied(I, clo, st.closures) && !vop.StrCat? && ExprsAt(I.G(c), I.slots, items, pc)
    requires Is(I.slots, pc + ExprsLen(items), Gathering(vop, items))
    ensures Meets(I, base, At(base, pc, floor, st, clo), floor, pc + ExprsLen(items) + 1, n, clo', fuel,
                  OneGoal(EvalReduce(I.p, vop, EvalAll(I.p, fuel, c, items, st))))
    decreases fuel, ExprsLen(items), |items| + 5
  {
    hide Filled, Fits, Tied, At, Meets, On, EvalAll, Prim, ExprAt, ExprLen;
    var s := At(base, pc, floor, st, clo);
    var q := pc + ExprsLen(items);
    Start(I, base, pc, floor, st, clo);
    n, clo' := NextExprs(I, c, base, s, 0, items, pc, floor, st, clo, fuel, floor, q + 1);
    var o := EvalAll(I.p, fuel, c, items, st);
    if o.Done? {
      var ins := Variadic(vop, Fixed(|o.v|));
      var m := OpMeets(I, base, q, floor, ins, o.v, o.st, clo', fuel);
      OnMeets(I, s, n, base, q, floor + o.v, o.st, clo', base, floor, q + 1, m, clo', fuel, fuel,
              OneGoal(Single(ApplyPrim(I.p, ins, o.v, o.st))));
      n := n + m;
    }
  }

  lemma {:induction false} SimReduce(I: Image, c: Ctx, base: State, e: Expr, pc: nat, floor: seq<Value>, st: St,
                                     clo: seq<Clo<nat>>, fuel: nat)
    returns (n: nat, clo': seq<Clo<nat>>)
    requires Ready(I, c, base) && Tied(I, clo, st.closures) && e.Reduce? && ExprAt(I.G(c), I.slots, e, pc)
    ensures Meets(I, base, At(base, pc, floor, st, clo), floor, pc + ExprLen(e), n, clo', fuel,
                  OneGoal(Eval(I.p, fuel, c, e, st)))
    decreases fuel, ExprLen(e), 1
  {
    hide Filled, Fits, Tied, At, Meets, On, EvalLits, EvalLit, ApplyPrim, Prim, LitAt, LitsAt, ShortAt, Are, EvalAll;
    hide CallNamed, CallClosureValue;
    var s := At(base, pc, floor, st, clo);
    Start(I, base, pc, floor, st, clo);
    if e.src.ListOf? {
      n, clo' := SimItems(I, c, base, e.vop, e.src.items, pc, floor, st, clo, fuel);
    } else if e.src.Literal? && e.src.v.ListLit? {
      var items := e.src.v.items;
      var q := pc + LitsLen(items);
      clo' := clo;
      n := SimLits(I, base, items, pc, floor, st, clo, fuel);
      var o := EvalLits(I.p, items, st);
      Continue(I, s, 0, base, pc, floor, st, clo, q, n, clo, fuel, ManyGoal(o), floor, q + 1);
      if o.Done? {
        var ins := Variadic(e.vop, Fixed(|o.v|));
        var m := OpMeets(I, base, q, floor, ins, o.v, o.st, clo, fuel);
        OnMeets(I, s, n, base, q, floor + o.v, o.st, clo, base, floor, q + 1, m, clo, fuel, fuel,
                OneGoal(Single(ApplyPrim(I.p, ins, o.v, o.st))));
        n := n + m;
      }
    } else {
      n, clo' := SimDynamic(I, c, base, e, pc, floor, st, clo, fuel);
    }
  }

  /** An operation over the items of any list that is not written out. */
  predicate IsDynamic(e: Expr) {
    e.Reduce? && !e.src.ListOf? && !Written(e.src)
  }

  lemma DynamicParts(g: Scope, code: seq<Slot>, p: Prog, c: Ctx, vop: VariadicOp, src: Expr, pc: int, st: St,
                     fuel: nat)
    requires IsDynamic(Reduce(vop, src)) && ExprAt(g, code, Reduce(vop, src), pc)
    ensures ExprAt(g, code, src, pc) && ExprLen(Reduce(vop, src)) == ExprLen(src) + 1 && !vop.StrCat?
    ensures Is(code, pc + ExprLen(src), Variadic(vop, Dynamic))
    ensures Eval(p, fuel, c, Reduce(vop, src), st) == EvalReduceDynamic(p, vop, Eval(p, fuel, c, src, st))
  {
    hide LitAt, ExprsAt, ShortAt, Are, LitLen, ExprsLen, LitsAt, LitsLen, EvalReduceDynamic, EvalLit;
  }

  lemma {:induction false} SimDynamic(I: Image, c: Ctx, base: State, e: Expr, pc: nat, floor: seq<Value>, st: St,
                                      clo: seq<Clo<nat>>, fuel: nat)
    returns (n: nat, clo': seq<Clo<nat>>)
    requires Ready(I, c, base) && Tied(I, clo, st.closures) && IsDynamic(e) && ExprAt(I.G(c), I.slots, e, pc)
    ensures Meets(I, base, At(base, pc, floor, st, clo), floor, pc + ExprLen(e), n, clo', fuel,
                  OneGoal(Eval(I.p, fuel, c, e, st)))
    decreases fuel, ExprLen(e), 0
  {
    hide Filled, Fits, Tied, At, Meets, On, EvalLits, ApplyPrim, Prim, LitAt, ExprsAt, ShortAt, Are, EvalAll;
    hide CallNamed, CallClosureValue, Callable, Capture, FoldWork, EvalLit, EvalReduce, EvalShort, EvalTest;
    hide EvalWork, ExprsLen, FindLoop, FoldLoop, KeepLoop, LitLen, LitsAt, LitsLen, Lookup, Lower, MapLoop, NulFree;
    hide Eval, ExprAt, ExprLen, Is;
    DynamicParts(I.G(c), I.slots, I.p, c, e.vop, e.src, pc, st, fuel);
    var s := At(base, pc, floor, st, clo);
    var q := pc + ExprLen(e.src);
    Start(I, base, pc, floor, st, clo);
    n, clo' := NextExpr(I, c, base, s, 0, e.src, pc, floor, st, clo, fuel, floor, q + 1);
    var o := Eval(I.p, fuel, c, e.src, st);
    if o.Done? {
      var ins := Variadic(e.vop, Dynamic);
      var m := OpMeets(I, base, q, floor, ins, [o.v], o.st, clo', fuel);
      OnMeets(I, s, n, base, q, floor + [o.v], o.st, clo', base, floor, q + 1, m, clo', fuel, fuel,
              OneGoal(Single(ApplyPrim(I.p, ins, [o.v], o.st))));
      n := n + m;
    }
  }

  /** A condition and the jump that tests it. */
  lemma {:induction false} SimBranch(I: Image, c: Ctx, base: State, e: Expr, to: nat, when_: bool, pc: nat,
                                     floor: seq<Value>, st: St, clo: seq<Clo<nat>>, fuel: nat, next: nat)
    returns (n: nat, clo': seq<Clo<nat>>)
    requires Ready(I, c, base) && Tied(I, clo, st.closures) && ExprAt(I.G(c), I.slots, e, pc)
    requires Is(I.slots, pc + ExprLen(e), ConditionalJump(to, when_))
    ensures var s := At(base, pc, floor, st, clo);
            match EvalTest(I.p, fuel, c, e, st)
            case Done(b, st') =>
              && On(I, s, n, base, if b == when_ then to else pc + ExprLen(e) + 1, floor, st', clo')
              && Tied(I, clo', st'.closures)
            case o => Meets(I, base, s, floor, next, n, clo', fuel, o.PropagateFailure())
    decreases fuel, ExprLen(e), 4
  {
    hide Filled, Fits, Tied, At, Meets, On, Eval, ExprAt, ExprLen, Is, AsBool, Run, Step;
    var s := At(base, pc, floor, st, clo);
    var q := pc + ExprLen(e);
    Start(I, base, pc, floor, st, clo);
    n, clo' := NextExpr(I, c, base, s, 0, e, pc, floor, st, clo, fuel, floor, next);
    var o := Eval(I.p, fuel, c, e, st);
    if o.Done? {
      OnRun(I, s, n, base, q, floor + [o.v], o.st, clo');
      if AsBool(o.v).Ok? {
        var to' := if AsBool(o.v).value == when_ then to else q + 1;
        BranchGoes(I, base, q, floor, o.v, to, when_, o.st, clo');
        RunOn(I, At(base, q, floor + [o.v], o.st, clo'), 1, base, to', floor, o.st, clo');
        OnTwo(I, s, n, base, q, floor + [o.v], o.st, clo', 1, base, to', floor, o.st, clo');
        n := n + 1;
      } else {
        BranchFails(I, base, q, floor, o.v, to, when_, next, AsBool(o.v).error, o.st, clo', fuel);
        OnMeets(I, s, n, base, q, floor + [o.v], o.st, clo', base, floor, next, 0, clo', fuel, fuel,
                Raised(AsBool(o.v).error, o.st));
      }
    }
  }

  lemma RunOn(I: Image, s: State, n: nat, base: State, pc: nat, values: seq<Value>, st: St, clo: seq<Clo<nat>>)
    requires base.calls != [] && Run(I.M(), s, n) == Some(At(base, pc, values, st, clo))
    ensures On(I, s, n, base, pc, values, st, clo)
  {
    hide Run, At;
  }

  lemma {:induction false} SimConditional(I: Image, c: Ctx, base: State, e: Expr, pc: nat, floor: seq<Value>, st: St,
                                          clo: seq<Clo<nat>>, fuel: nat)
    returns (n: nat, clo': seq<Clo<nat>>)
    requires Ready(I, c, base) && Tied(I, clo, st.closures) && e.Conditional? && ExprAt(I.G(c), I.slots, e, pc)
    ensures Meets(I, base, At(base, pc, floor, st, clo), floor, pc + ExprLen(e), n, clo', fuel,
                  OneGoal(Eval(I.p, fuel, c, e, st)))
    decreases fuel, ExprLen(e), 0
  {
    hide Filled, Fits, Tied, At, Meets, On, EvalTest, Run, Step, Prim, LitAt, ExprsAt, ShortAt, Are, EvalAll;
    hide CallNamed, CallClosureValue, ApplyPrim, Arity, Callable, Capture, FoldWork, EvalLit, EvalLits;
    hide EvalReduce, EvalReduceDynamic, EvalShort, EvalWork, ExprsLen, FindLoop, FoldLoop, KeepLoop, LitLen, LitsAt;
    hide LitsLen, Lookup, Lower, MapLoop, NulFree;
    var test := pc + ExprLen(e.cond);
    var jump := test + 1 + ExprLen(e.then_);
    var aft := jump + 1 + ExprLen(e.else_);
    var s := At(base, pc, floor, st, clo);
    n, clo' := SimBranch(I, c, base, e.cond, jump + 1, false, pc, floor, st, clo, fuel, aft);
    var o := EvalTest(I.p, fuel, c, e.cond, st);
    if o.Done? {
      var clo1 := clo';
      var m;
      if o.v {
        m, clo' := SimExpr(I, c, base, e.then_, test + 1, floor, o.st, clo1, fuel);
        m := ThenJump(I, base, At(base, test + 1, floor, o.st, clo1), floor, jump, aft, m, clo', fuel,
                      OneGoal(Eval(I.p, fuel, c, e.then_, o.st)));
        OnMeets(I, s, n, base, test + 1, floor, o.st, clo1, base, floor, aft, m, clo', fuel, fuel,
                OneGoal(Eval(I.p, fuel, c, e.then_, o.st)));
      } else {
        m, clo' := SimExpr(I, c, base, e.else_, jump + 1, floor, o.st, clo1, fuel);
        OnMeets(I, s, n, base, jump + 1, floor, o.st, clo1, base, floor, aft, m, clo', fuel, fuel,
                OneGoal(Eval(I.p, fuel, c, e.else_, o.st)));
      }
      n := n + m;
    }
  }

  lemma ToBoolMeets(I: Image, base: State, pc: nat, floor: seq<Value>, v: Value, st: St, clo: seq<Clo<nat>>, fuel: nat)
      returns (n: nat)
    requires base.calls != [] && Filled(I) && Tied(I, clo, st.closures) && Is(I.slots, pc, ToBool)
    ensures Meets(I, base, At(base, pc, floor + [v], st, clo), floor, pc + 1, n, clo, fuel,
                  BoolGoal(Lift(AsBool(v), st)))
  {
    hide Filled, Tied, At, Meets, Is, BinaryOn, UnaryOn, Combine, Relates, OnList;
    n := OpMeets(I, base, pc, floor, ToBool, [v], st, clo, fuel);
  }

  lemma {:induction false} TestEval(p: Prog, fuel: nat, c: Ctx, e: Expr, st: St)
    ensures BoolGoal(EvalTest(p, fuel, c, e, st))
            == match Eval(p, fuel, c, e, st) case Done(v, s) => BoolGoal(Lift(AsBool(v), s)) case o => OneGoal(o)
  {
    hide Eval, AsBool;
  }

  lemma {:induction false} ShortEval(p: Prog, fuel: nat, c: Ctx, left: Expr, right: Expr, decides: bool, st: St)
    ensures OneGoal(EvalShort(p, fuel, c, left, right, decides, st))
            == BoolGoal(match EvalTest(p, fuel, c, left, st)
                        case Done(b, s) => if b == decides then Done(b, s) else EvalTest(p, fuel, c, right, s)
                        case o => o)
  {
    hide Eval, EvalTest;
  }

  lemma {:induction false} SimShort(I: Image, c: Ctx, base: State, left: Expr, right: Expr, decides: bool, pc: nat,
                                    floor: seq<Value>, st: St, clo: seq<Clo<nat>>, fuel: nat)
    returns (n: nat, clo': seq<Clo<nat>>)
    requires Ready(I, c, base) && Tied(I, clo, st.closures) && ShortAt(I.G(c), I.slots, left, right, decides, pc)
    ensures Meets(I, base, At(base, pc, floor, st, clo), floor, pc + ExprLen(left) + ExprLen(right) + 4, n, clo', fuel,
                  OneGoal(EvalShort(I.p, fuel, c, left, right, decides, st)))
    decreases fuel, ExprLen(left) + ExprLen(right), 4
  {
    hide Filled, Fits, Tied, At, Meets, On, Run, Step, ExprAt, ShortAt, Eval, EvalShort, EvalTest, AsBool, ExprLen, Is;
    hide Are, Exec1;
    ShortParts(I.G(c), I.slots, left, right, decides, pc);
    ShortEval(I.p, fuel, c, left, right, decides, st);
    TestEval(I.p, fuel, c, left, st);
    var a := pc + ExprLen(left);
    var aft := a + 3 + ExprLen(right);
    var s := At(base, pc, floor, st, clo);
    Start(I, base, pc, floor, st, clo);
    n, clo' := NextExpr(I, c, base, s, 0, left, pc, floor, st, clo, fuel, floor, aft + 1);
    var o := Eval(I.p, fuel, c, left, st);
    if o.Done? {
      var b := AsBool(o.v);
      if b.Ok? && b.value != decides {
        var m := ShortTest(I, c, base, a, aft, decides, floor, o.v, o.st, clo', fuel);
        OnTwo(I, s, n, base, a, floor + [o.v], o.st, clo', m, base, a + 3, floor, o.st, clo');
        n, clo' := SimRight(I, c, base, s, n + m, right, a + 3, floor, o.st, clo', fuel);
      } else {
        n := ShortDecided(I, c, base, s, n, a, aft, decides, floor, o.v, o.st, clo', fuel);
      }
    }
  }

  /** The first operand fails the test or settles the answer. */
  lemma ShortDecided(I: Image, c: Ctx, base: State, s: State, a: nat, pc: nat, aft: nat, decides: bool,
                     floor: seq<Value>, v: Value, st: St, clo: seq<Clo<nat>>, fuel: nat)
    returns (n: nat)
    requires Ready(I, c, base) && Tied(I, clo, st.closures) && Are(I.slots, pc, ShortCode(aft, decides))
             && Is(I.slots, aft, ToBool)
    requires On(I, s, a, base, pc, floor + [v], st, clo) && AsBool(v) != Ok(!decides)
    ensures Meets(I, base, s, floor, aft + 1, n, clo, fuel, BoolGoal(Lift(AsBool(v), st)))
  {
    hide Filled, Fits, Tied, At, Meets, On, Run, Step, AsBool, Is, Are;
    var b := AsBool(v);
    var m := ShortTest(I, c, base, pc, aft, decides, floor, v, st, clo, fuel);
    if b.Err? {
      Escape(I, base, base, At(base, pc, floor + [v], st, clo), floor, floor, aft + 1, 0, m, clo, fuel,
             Raised(b.error, st));
      OnMeets(I, s, a, base, pc, floor + [v], st, clo, base, floor, aft + 1, m, clo, fuel, fuel, Raised(b.error, st));
      n := a + m;
    } else {
      OnTwo(I, s, a, base, pc, floor + [v], st, clo, m, base, aft, floor + [v], st, clo);
      var k := ToBoolMeets(I, base, aft, floor, v, st, clo, fuel);
      OnMeets(I, s, a + m, base, aft, floor + [v], st, clo, base, floor, aft + 1, k, clo, fuel, fuel,
              Done(Leaves([Bool(b.value)]), st));
      n := a + m + k;
    }
  }

  lemma {:induction false} SimRight(I: Image, c: Ctx, base: State, s: State, a: nat, right: Expr, pc: nat,
                                    floor: seq<Value>, st: St, clo: seq<Clo<nat>>, fuel: nat)
    returns (n: nat, clo': seq<Clo<nat>>)
    requires Ready(I, c, base) && Tied(I, clo, st.closures) && ExprAt(I.G(c), I.slots, right, pc)
    requires Is(I.slots, pc + ExprLen(right), ToBool) && On(I, s, a, base, pc, floor, st, clo)
    ensures var o := EvalTest(I.p, fuel, c, right, st);
            Meets(I, base, s, floor, pc + ExprLen(right) + 1, n, clo', fuel, BoolGoal(o))
    decreases fuel, ExprLen(right), 4
  {
    hide Filled, Fits, Tied, At, Meets, On, Run, Step, ExprAt, Eval, AsBool, ExprLen, Is;
    var aft := pc + ExprLen(right);
    n, clo' := NextExpr(I, c, base, s, a, right, pc, floor, st, clo, fuel, floor, aft + 1);
    var o := Eval(I.p, fuel, c, right, st);
    if o.Done? {
      var k := ToBoolMeets(I, base, aft, floor, o.v, o.st, clo', fuel);
      OnMeets(I, s, n, base, aft, floor + [o.v], o.st, clo', base, floor, aft + 1, k, clo', fuel, fuel,
              BoolGoal(Lift(AsBool(o.v), o.st)));
      n := n + k;
    }
  }

  // ----- calls -----

  lemma {:induction false} SimCall(I: Image, c: Ctx, base: State, name: Str, args: seq<Value>, pc: nat,
                                   floor: seq<Value>, st: St, clo: seq<Clo<nat>>, fuel: nat)
    returns (n: nat, clo': seq<Clo<nat>>)
    requires Ready(I, c, base) && Tied(I, clo, st.closures)
    requires Hole(I.slots, pc, CallHole(name, c.ent)) && Callable(I.G(c), name, |args|)
    ensures Meets(I, base, At(base, pc, floor + args, st, clo), floor, pc + 1, n, clo', fuel,
                  OneGoal(CallNamed(I.p, fuel, c, name, args, st)))
    decreases fuel, 0, 0
  {
    hide Filled, Fits, Tied, At, Meets, On, BodyAt, RunBody, Activation, DefineAll, NulFree, StmtLen;
    var s := At(base, pc, floor + args, st, clo);
    n, clo' := 0, clo;
    if fuel == 0 {
      NoFuel(I, base, s, floor, pc + 1, clo);
    } else if c.depth >= I.p.w.maxCallDepth {
      CallTooDeep(I, c, base, name, args, pc, floor, st, clo, fuel);
    } else {
      CallEnters(I, c, base, name, args, pc, floor, st, clo);
      var k := ResolveKey(I.p.fns, c.ent, name).value;
      var fn := I.p.fns[k];
      var (l, h) := DefineAll(map[], st.heap, fn.params, args);
      var base' := Activation(base, pc, floor, st, l);
      var st1 := st.(locals := l, heap := h);
      ActivationFits(base, c, pc, floor, st, l, fn.ent);
      ActivationCalls(base, pc, floor, st, l);
      n, clo' := SimBody(I, Callee(c, st, fn.ent), base', fn.upvars, fn.body, I.fnEntry[k], floor, st1, clo, fuel - 1);
      var o := RunBody(I.p, fuel - 1, Callee(c, st, fn.ent), fn.upvars, fn.body, st1);
      n := CallResumes(I, base, pc, At(base', I.fnEntry[k], floor, st1, clo), floor, st, l, n, clo', fuel - 1, o);
      OnMeets(I, s, 1, base', I.fnEntry[k], floor, st1, clo, base, floor, pc + 1, n, clo', fuel, fuel - 1,
              OneGoal(Resume(o, st.locals)));
      n := n + 1;
    }
  }

  lemma {:induction false} SimCallClosure(I: Image, c: Ctx, base: State, f: Value, args: seq<Value>, pc: nat,
                                          floor: seq<Value>, st: St, clo: seq<Clo<nat>>, fuel: nat)
    returns (n: nat, clo': seq<Clo<nat>>)
    requires Ready(I, c, base) && Tied(I, clo, st.closures) && Is(I.slots, pc, Calling(args))
    ensures Meets(I, base, At(base, pc, floor + [f] + args, st, clo), floor, pc + 1, n, clo', fuel,
                  OneGoal(CallClosureValue(I.p, fuel, c, f, args, st)))
    decreases fuel, 0, 0
  {
    hide Filled, Fits, At, Meets, On, BodyAt, RunBody, Activation, DefineAll, Is, StmtLen;
    var s := At(base, pc, floor + [f] + args, st, clo);
    n, clo' := 0, clo;
    if fuel == 0 {
      NoFuel(I, base, s, floor, pc + 1, clo);
    } else if !f.Closure? || f.id >= |clo| || |clo[f.id].params| != |args| {
      ClosureRefuses(I, base, f, args, pc, floor, st, clo, fuel);
    } else {
      ClosureEnters(I, base, f.id, args, pc, floor, st, clo);
      var k := st.closures[f.id];
      var (l, h) := DefineAll(k.captures, st.heap, k.params, args);
      var base' := Activation(base, pc, floor, st, l);
      var st1 := st.(locals := l, heap := h);
      ActivationFits(base, c, pc, floor, st, l, k.code.ent);
      ActivationCalls(base, pc, floor, st, l);
      var entry := clo[f.id].code;
      n, clo' := SimBody(I, Callee(c, st, k.code.ent), base', [], k.code.body, entry, floor, st1, clo, fuel - 1);
      var o := RunBody(I.p, fuel - 1, Callee(c, st, k.code.ent), [], k.code.body, st1);
      n := CallResumes(I, base, pc, At(base', entry, floor, st1, clo), floor, st, l, n, clo', fuel - 1, o);
      OnMeets(I, s, 1, base', entry, floor, st1, clo, base, floor, pc + 1, n, clo', fuel, fuel - 1,
              OneGoal(Resume(o, st.locals)));
      n := n + 1;
    }
  }

  lemma {:induction false} SimBody(I: Image, c: Ctx, base: State, upvars: seq<Str>, body: seq<Stmt>, pc: nat,
                                   floor: seq<Value>, st: St, clo: seq<Clo<nat>>, fuel: nat)
    returns (n: nat, clo': seq<Clo<nat>>)
    requires Ready(I, c, base) && Tied(I, clo, st.closures) && BodyAt(I.G(c), I.slots, upvars, body, pc)
    ensures Meets(I, base, At(base, pc, floor, st, clo), floor, 0, n, clo', fuel,
                  BodyGoal(RunBody(I.p, fuel, c, upvars, body, st)))
    decreases fuel, StmtsLen(body), |body| + 6
  {
    hide Filled, Fits, Tied, At, Meets, On, Are, ExecAll, StmtsAt, LinkUpvars, StmtsLen;
    var s := At(base, pc, floor, st, clo);
    var q := pc + |upvars|;
    clo' := clo;
    n := UpvarsMeet(I, c, base, upvars, pc, floor, st, clo, fuel);
    var o := LinkUpvars(I.p, c, upvars, st);
    if o.Done? {
      var end := q + StmtsLen(body);
      n, clo' := NextStmts(I, c, base, s, n, body, q, floor, o.st, clo, fuel, floor, 0);
      var r := ExecAll(I.p, fuel, c, body, o.st);
      if r.Done? && r.v.None? {
        FallsOff(I, s, n, base, end, floor, r.st, clo', fuel);
        n := n + 1;
      }
    }
  }

  lemma {:induction false} SimCallFn(I: Image, c: Ctx, base: State, name: Str, args: seq<Expr>, upvars: seq<Str>,
                                     pc: nat, floor: seq<Value>, st: St, clo: seq<Clo<nat>>, fuel: nat)
    returns (n: nat, clo': seq<Clo<nat>>)
    requires Ready(I, c, base) && Tied(I, clo, st.closures) && ExprAt(I.G(c), I.slots, CallFn(name, args, upvars), pc)
    ensures Meets(I, base, At(base, pc, floor, st, clo), floor, pc + ExprLen(CallFn(name, args, upvars)), n, clo', fuel,
                  OneGoal(Eval(I.p, fuel, c, CallFn(name, args, upvars), st)))
    decreases fuel, ExprLen(CallFn(name, args, upvars)), 0
  {
    hide Filled, Fits, Tied, At, Meets, On, Callable, EvalAll, CallNamed, DeclaresAt, DeclareAllIn, ExprsAt, Run;
    hide Step, Prim, ApplyPrim, Are, Arity, CallClosureValue, Capture, FoldWork, EvalLit, EvalLits, EvalReduce;
    hide EvalReduceDynamic, EvalShort, EvalTest, EvalWork, FindLoop, FoldLoop, Is, KeepLoop, LitAt, LitLen, LitsAt;
    hide LitsLen, Lookup, Lower, MapLoop, NulFree, ShortAt;
    n, clo' := SimNamed(I, c, base, name, args, upvars, pc, floor, st, clo, fuel);
  }

  /** Declares what the callee links to, evaluates the arguments, and calls. */
  lemma {:induction false} SimNamed(I: Image, c: Ctx, base: State, name: Str, args: seq<Expr>, upvars: seq<Str>,
                                    pc: nat, floor: seq<Value>, st: St, clo: seq<Clo<nat>>, fuel: nat)
    returns (n: nat, clo': seq<Clo<nat>>)
    requires Ready(I, c, base) && Tied(I, clo, st.closures)
    requires DeclaresAt(I.slots, upvars, pc) && ExprsAt(I.G(c), I.slots, args, pc + |upvars|)
             && Callable(I.G(c), name, |args|)
    requires Hole(I.slots, pc + |upvars| + ExprsLen(args), CallHole(name, c.ent))
    ensures Meets(I, base, At(base, pc, floor, st, clo), floor, pc + |upvars| + ExprsLen(args) + 1, n, clo', fuel,
                  match EvalAll(I.p, fuel, c, args, DeclareAllIn(st, upvars))
                  case Done(vs, s) => OneGoal(CallNamed(I.p, fuel, c, name, vs, s))
                  case o => ManyGoal(o))
    decreases fuel, ExprsLen(args), |args| + 5
  {
    hide Filled, Fits, Tied, At, Meets, On, Callable, EvalAll, CallNamed, DeclaresAt, ExprsAt, ExprsLen, Run, Step;
    var s := At(base, pc, floor, st, clo);
    var a := pc + |upvars|;
    var hole := a + ExprsLen(args);
    var st1 := DeclareAllIn(st, upvars);
    DeclareAllGoes(I, base, pc, floor, upvars, st, clo);
    RunOn(I, s, |upvars|, base, a, floor, st1, clo);
    DeclaredClosures(st, upvars);
    n, clo' := NextExprs(I, c, base, s, |upvars|, args, a, floor, st1, clo, fuel, floor, hole + 1);
    var o := EvalAll(I.p, fuel, c, args, st1);
    if o.Done? {
      var clo1, m := clo', n;
      m, clo' := SimCall(I, c, base, name, o.v, hole, floor, o.st, clo1, fuel);
      OnMeets(I, s, n, base, hole, floor + o.v, o.st, clo1, base, floor, hole + 1, m, clo', fuel, fuel,
              OneGoal(CallNamed(I.p, fuel, c, name, o.v, o.st)));
      n := n + m;
    }
  }

  lemma {:induction false} DeclaredClosures(st: St, names: seq<Str>)
    ensures DeclareAllIn(st, names).closures == st.closures
    decreases |names|
  {
    if names != [] {
      DeclaredClosures(DeclareIn(st, names[0]), names[1..]);
    }
  }

  lemma {:induction false} SimCallValue(I: Image, c: Ctx, base: State, f: Expr, args: seq<Expr>, pc: nat,
                                        floor: seq<Value>, st: St, clo: seq<Clo<nat>>, fuel: nat)
    returns (n: nat, clo': seq<Clo<nat>>)
    requires Ready(I, c, base) && Tied(I, clo, st.closures) && ExprAt(I.G(c), I.slots, CallValue(f, args), pc)
    ensures Meets(I, base, At(base, pc, floor, st, clo), floor, pc + ExprLen(CallValue(f, args)), n, clo', fuel,
                  OneGoal(Eval(I.p, fuel, c, CallValue(f, args), st)))
    decreases fuel, ExprLen(CallValue(f, args)), 0
  {
    hide Filled, Fits, Tied, At, Meets, On, EvalAll, CallClosureValue, ExprsAt, Run, Step, Prim, CallNamed, LitAt;
    hide ShortAt, Are, ApplyPrim, Arity, Callable, Capture, FoldWork, EvalLit, EvalLits, EvalReduce;
    hide EvalReduceDynamic, EvalShort, EvalTest, EvalWork, FindLoop, FoldLoop, KeepLoop, LitLen, LitsAt, LitsLen;
    hide Lookup, Lower, MapLoop, NulFree;
    n, clo' := SimApply(I, c, base, f, args, pc, floor, st, clo, fuel);
  }

  /** Evaluates a closure and its arguments, and calls it. */
  lemma {:induction false} SimApply(I: Image, c: Ctx, base: State, f: Expr, args: seq<Expr>, pc: nat,
                                    floor: seq<Value>, st: St, clo: seq<Clo<nat>>, fuel: nat)
    returns (n: nat, clo': seq<Clo<nat>>)
    requires Ready(I, c, base) && Tied(I, clo, st.closures)
    requires ExprAt(I.G(c), I.slots, f, pc) && ExprsAt(I.G(c), I.slots, args, pc + ExprLen(f))
    requires Is(I.slots, pc + ExprLen(f) + ExprsLen(args), Calling(args))
    ensures Meets(I, base, At(base, pc, floor, st, clo), floor, pc + ExprLen(f) + ExprsLen(args) + 1, n, clo', fuel,
                  match Eval(I.p, fuel, c, f, st)
                  case Done(v, s) => (
                    match EvalAll(I.p, fuel, c, args, s)
                    case Done(vs, s') => OneGoal(CallClosureValue(I.p, fuel, c, v, vs, s'))
                    case r => ManyGoal(r))
                  case o => OneGoal(o))
    decreases fuel, ExprLen(f) + ExprsLen(args), |args| + 5
  {
    hide Filled, Fits, Tied, At, Meets, On, Eval, ExprAt, EvalAll, CallClosureValue, ExprsAt, ExprsLen, ExprLen, Run;
    hide Step, Is;
    var s := At(base, pc, floor, st, clo);
    var a := pc + ExprLen(f);
    var q := a + ExprsLen(args);
    Start(I, base, pc, floor, st, clo);
    n, clo' := NextExpr(I, c, base, s, 0, f, pc, floor, st, clo, fuel, floor, q + 1);
    var o := Eval(I.p, fuel, c, f, st);
    if o.Done? {
      n, clo' := NextExprs(I, c, base, s, n, args, a, floor + [o.v], o.st, clo', fuel, floor, q + 1);
      var r := EvalAll(I.p, fuel, c, args, o.st);
      if r.Done? {
        var clo1, m := clo', n;
        m, clo' := SimCallClosure(I, c, base, o.v, r.v, q, floor, r.st, clo1, fuel);
        OnMeets(I, s, n, base, q, floor + [o.v] + r.v, r.st, clo1, base, floor, q + 1, m, clo', fuel, fuel,
                OneGoal(CallClosureValue(I.p, fuel, c, o.v, r.v, r.st)));
        n := n + m;
      }
    }
  }

  // ----- higher-order blocks -----

  /** The closure and the private copy of the list, left on the stack. */
  lemma {:induction false} SimWork(I: Image, c: Ctx, base: State, f: Expr, list: Expr, pc: nat, floor: seq<Value>,
                                   st: St, clo: seq<Clo<nat>>, fuel: nat, next: nat)
    returns (n: nat, clo': seq<Clo<nat>>)
    requires Ready(I, c, base) && Tied(I, clo, st.closures)
    requires ExprAt(I.G(c), I.slots, f, pc) && ExprAt(I.G(c), I.slots, list, pc + ExprLen(f))
    requires Is(I.slots, pc + ExprLen(f) + ExprLen(list), Variadic(MakeList, Dynamic))
    ensures var s := At(base, pc, floor, st, clo);
            match EvalWork(I.p, fuel, c, f, list, st)
            case Done(p, st') =>
              && On(I, s, n, base, pc + ExprLen(f) + ExprLen(list) + 1, floor + [p.0, List(p.1)], st', clo')
              && Tied(I, clo', st'.closures)
            case o => Meets(I, base, s, floor, next, n, clo', fuel, WorkGoal(o))
    decreases fuel, ExprLen(f) + ExprLen(list), 4
  {
    hide Filled, Fits, Tied, At, Meets, On, Eval, ExprAt, ExprLen, Run, Step, Is, CopyList, Items, WorkId;
    var s := At(base, pc, floor, st, clo);
    var a := pc + ExprLen(f);
    var q := a + ExprLen(list);
    Start(I, base, pc, floor, st, clo);
    n, clo' := NextExpr(I, c, base, s, 0, f, pc, floor, st, clo, fuel, floor, next);
    var o := Eval(I.p, fuel, c, f, st);
    if o.Done? {
      n, clo' := NextExpr(I, c, base, s, n, list, a, floor + [o.v], o.st, clo', fuel, floor, next);
      var l := Eval(I.p, fuel, c, list, o.st);
      if l.Done? {
        n := NextCopy(I, base, s, n, q, floor + [o.v], l.v, l.st, clo', fuel, floor, next);
        var w := CopyList(I.p, l.v, l.st);
        assert w.Done? ==> floor + [o.v] + [List(WorkId(w.v))] == floor + [o.v, List(WorkId(w.v))];
      }
    }
  }

  lemma NextCopy(I: Image, base: State, s: State, a: nat, q: nat, values: seq<Value>, v: Value, st: St,
                 clo: seq<Clo<nat>>, fuel: nat, floor: seq<Value>, next: nat)
    returns (n: nat)
    requires Filled(I) && Tied(I, clo, st.closures) && Is(I.slots, q, Variadic(MakeList, Dynamic))
    requires On(I, s, a, base, q, values + [v], st, clo) && floor <= values
    ensures match CopyList(I.p, v, st)
            case Done(w, st') =>
              On(I, s, n, base, q + 1, values + [List(WorkId(w))], st', clo) && Tied(I, clo, st'.closures)
            case o => o.Raised? && Meets(I, base, s, floor, next, n, clo, fuel, OneGoal(o))
  {
    hide Filled, Tied, At, Meets, Run, Step, Is, CopyList, Items;
    var m := CopyMeets(I, base, q, values, v, st, clo, fuel);
    var w := CopyList(I.p, v, st);
    OnMeets(I, s, a, base, q, values + [v], st, clo, base, values, q + 1, m, clo, fuel, fuel, OneGoal(w));
    n := a + m;
    if w.Done? {
      MeetsOn(I, base, s, values, q + 1, n, clo, fuel, [w.v], w.st);
    } else {
      Escape(I, base, base, s, floor, values, next, q + 1, n, clo, fuel, OneGoal(w));
    }
  }

  predicate MakesList(ins: seq<Instruction>) {
    |ins| >= 2 && ins[1] == Variadic(MakeList, Fixed(0))
  }

  /** An empty list for the results. */
  lemma NewList(I: Image, s: State, n: nat, base: State, q: nat, ins: seq<Instruction>, f: Value, work: nat,
                floor: seq<Value>, st: St, clo: seq<Clo<nat>>)
    requires Filled(I) && Are(I.slots, q, ins) && MakesList(ins)
    requires On(I, s, n, base, q + 1, floor + [f, List(work)], st, clo)
    ensures On(I, s, n + 1, base, q + 2, floor + [f, List(work), List(NewId(st))], WithNew(st), clo)
  {
    hide Filled, Are, At, On, BinaryOn, UnaryOn, Relates, OnList, ConcatLists;
    var v := floor + [f, List(work)];
    var out := List(|st.heap.lists|);
    var heap := st.heap.(lists := st.heap.lists + [[]]);
    PrimTo(I, s, n, base, q, ins, 1, v, [], [out], heap, v, floor + [f, List(work), out], st, clo);
  }

  lemma {:induction false} MapEval(p: Prog, fuel: nat, c: Ctx, f: Expr, list: Expr, st: St)
    ensures OneGoal(Eval(p, fuel, c, Map(f, list), st))
            == match EvalWork(p, fuel, c, f, list, st)
               case Done(w, s) => OneGoal(MapLoop(p, fuel, c, w.0, w.1, NewId(s), WithNew(s)))
               case o => WorkGoal(o)
  {
    hide EvalWork, MapLoop, ApplyPrim, CallClosureValue, CallNamed, Capture, EvalAll, FoldWork, EvalLit, EvalLits;
    hide EvalReduce, EvalReduceDynamic, EvalShort, EvalTest, ExprLen, FindLoop, FoldLoop, KeepLoop, Lookup, Lower;
  }

  lemma {:induction false} SimMap(I: Image, c: Ctx, base: State, f: Expr, list: Expr, pc: nat, floor: seq<Value>,
                                  st: St, clo: seq<Clo<nat>>, fuel: nat)
    returns (n: nat, clo': seq<Clo<nat>>)
    requires Ready(I, c, base) && Tied(I, clo, st.closures) && ExprAt(I.G(c), I.slots, Map(f, list), pc)
    ensures Meets(I, base, At(base, pc, floor, st, clo), floor, pc + ExprLen(Map(f, list)), n, clo', fuel,
                  OneGoal(Eval(I.p, fuel, c, Map(f, list), st)))
    decreases fuel, ExprLen(Map(f, list)), 0
  {
    hide Filled, Fits, Tied, At, Meets, On, Eval, ExprAt, ExprLen, EvalWork, MapLoop, Are, Is, Run, Step;
    MapParts(I.G(c), I.slots, f, list, pc);
    AreIs(I.slots, pc + ExprLen(f) + ExprLen(list), MapCode(pc + ExprLen(f) + ExprLen(list)), 0);
    MapEval(I.p, fuel, c, f, list, st);
    var s := At(base, pc, floor, st, clo);
    var q := pc + ExprLen(f) + ExprLen(list);
    n, clo' := SimWork(I, c, base, f, list, pc, floor, st, clo, fuel, q + 14);
    var o := EvalWork(I.p, fuel, c, f, list, st);
    if o.Done? {
      NewList(I, s, n, base, q, MapCode(q), o.v.0, o.v.1, floor, o.st, clo');
      var out, st1 := NewId(o.st), WithNew(o.st);
      var v, clo1, m := floor + [o.v.0, List(o.v.1), List(out)], clo', n;
      m, clo' := SimMapLoop(I, c, base, q, floor, o.v.0, o.v.1, out, st1, clo1, fuel);
      OnMeets(I, s, n + 1, base, q + 2, v, st1, clo1, base, floor, q + 14, m, clo', fuel, fuel,
              OneGoal(MapLoop(I.p, fuel, c, o.v.0, o.v.1, out, st1)));
      n := n + 1 + m;
    }
  }

  lemma {:induction false} MapLoopEval(p: Prog, fuel: nat, c: Ctx, f: Value, work: nat, out: nat, st: St)
    ensures var items := Items(st.heap.lists, work);
            OneGoal(MapLoop(p, fuel, c, f, work, out, st))
            == if items == [] then Done(Leaves([List(out)]), st)
               else match CallClosureValue(p, fuel, c, f, [FirstOf(items)], TakeFirst(st, work))
                    case Done(v, s) =>
                      if fuel == 0 then OutOfFuel
                      else OneGoal(MapLoop(p, Spent(fuel), c, f, work, out, Turn(c, Append(s, out, v))))
                    case o => OneGoal(o)
  {
    hide CallClosureValue, Items, TakeFirst, Append;
  }

  lemma {:induction false} SimMapLoop(I: Image, c: Ctx, base: State, q: nat, floor: seq<Value>, f: Value, work: nat,
                                      out: nat, st: St, clo: seq<Clo<nat>>, fuel: nat)
    returns (n: nat, clo': seq<Clo<nat>>)
    requires Ready(I, c, base) && Tied(I, clo, st.closures) && Are(I.slots, q, MapCode(q))
    ensures Meets(I, base, At(base, q + 2, floor + [f, List(work), List(out)], st, clo), floor, q + 14, n, clo', fuel,
                  OneGoal(MapLoop(I.p, fuel, c, f, work, out, st)))
    decreases fuel, 0, 2
  {
    hide Filled, Fits, Tied, At, Meets, On, MapLoop, CallClosureValue, Are, Is, Run, Step, Items, SetItems;
    MapLoopEval(I.p, fuel, c, f, work, out, st);
    var v := floor + [f, List(work), List(out)];
    var s := At(base, q + 2, v, st, clo);
    n := MapEnter(I, c, base, q, floor, f, work, out, st, clo);
    clo' := clo;
    var items := Items(st.heap.lists, work);
    if items == [] {
      OnLands(I, s, n, base, q + 14, floor, [List(out)], st, clo, fuel);
    } else {
      var st1 := TakeFirst(st, work);
      AreIs(I.slots, q, MapCode(q), 5);
      n, clo' := NextCall(I, c, base, s, n, f, [items[0]], q + 5, v, st1, clo, fuel, floor, q + 14);
      var o := CallClosureValue(I.p, fuel, c, f, [items[0]], st1);
      if o.Done? {
        var st2 := Turn(c, Append(o.st, out, o.v));
        var m := MapAppend(I, c, base, q, floor, f, work, out, o.v, o.st, clo');
        OnTwo(I, s, n, base, q + 6, v + [o.v], o.st, clo', m, base, q + 2, v, st2, clo');
        if fuel == 0 {
          NoFuel(I, base, s, floor, q + 14, clo');
          n := 0;
        } else {
          var clo1, k := clo', n + m;
          n, clo' := SimMapLoop(I, c, base, q, floor, f, work, out, st2, clo1, fuel - 1);
          OnMeets(I, s, k, base, q + 2, v, st2, clo1, base, floor, q + 14, n, clo', fuel, fuel - 1,
                  OneGoal(MapLoop(I.p, fuel - 1, c, f, work, out, st2)));
          n := k + n;
        }
      }
    }
  }

  /** A call run where the code before it ended. */
  lemma {:induction false} NextCall(I: Image, c: Ctx, base: State, s: State, a: nat, f: Value, args: seq<Value>,
                                    pc: nat, values: seq<Value>, st: St, clo: seq<Clo<nat>>, fuel: nat,
                                    floor: seq<Value>, next: nat) returns (n: nat, clo': seq<Clo<nat>>)
    requires Ready(I, c, base) && Tied(I, clo, st.closures) && Is(I.slots, pc, Calling(args))
    requires On(I, s, a, base, pc, values + [f] + args, st, clo) && floor <= values
    ensures match CallClosureValue(I.p, fuel, c, f, args, st)
            case Done(v, st') => On(I, s, n, base, pc + 1, values + [v], st', clo') && Tied(I, clo', st'.closures)
            case o => Meets(I, base, s, floor, next, n, clo', fuel, OneGoal(o))
    decreases fuel, 0, 1
  {
    hide *;
    n, clo' := SimCallClosure(I, c, base, f, args, pc, values, st, clo, fuel);
    var o := CallClosureValue(I.p, fuel, c, f, args, st);
    OneEscapes(o);
    OnMeets(I, s, a, base, pc, values + [f] + args, st, clo, base, values, pc + 1, n, clo', fuel, fuel, OneGoal(o));
    n := a + n;
    if o.Done? {
      MeetsOn(I, base, s, values, pc + 1, n, clo', fuel, [o.v], o.st);
    } else {
      Escape(I, base, base, s, floor, values, next, pc + 1, n, clo', fuel, OneGoal(o));
    }
  }

  lemma MeetsOn(I: Image, base: State, s: State, floor: seq<Value>, next: nat, n: nat, clo: seq<Clo<nat>>, fuel: nat,
                vs: seq<Value>, st: St)
    requires Meets(I, base, s, floor, next, n, clo, fuel, Done(Leaves(vs), st))
    ensures On(I, s, n, base, next, floor + vs, st, clo) && Tied(I, clo, st.closures)
  {
    hide Run, At, Tied, StepImpl;
  }

  lemma {:induction false} KeepEval(p: Prog, fuel: nat, c: Ctx, f: Expr, list: Expr, st: St)
    ensures OneGoal(Eval(p, fuel, c, Keep(f, list), st))
            == match EvalWork(p, fuel, c, f, list, st)
               case Done(w, s) => OneGoal(KeepLoop(p, fuel, c, w.0, w.1, NewId(s), WithNew(s)))
               case o => WorkGoal(o)
  {
    hide EvalWork, KeepLoop, ApplyPrim, CallClosureValue, CallNamed, Capture, EvalAll, FoldWork, EvalLit;
    hide EvalLits, EvalReduce, EvalReduceDynamic, EvalShort, EvalTest, ExprLen, FindLoop, FoldLoop, Lookup, Lower;
    hide MapLoop;
  }

  lemma {:induction false} SimKeep(I: Image, c: Ctx, base: State, f: Expr, list: Expr, pc: nat, floor: seq<Value>,
                                   st: St, clo: seq<Clo<nat>>, fuel: nat)
    returns (n: nat, clo': seq<Clo<nat>>)
    requires Ready(I, c, base) && Tied(I, clo, st.closures) && ExprAt(I.G(c), I.slots, Keep(f, list), pc)
    ensures Meets(I, base, At(base, pc, floor, st, clo), floor, pc + ExprLen(Keep(f, list)), n, clo', fuel,
                  OneGoal(Eval(I.p, fuel, c, Keep(f, list), st)))
    decreases fuel, ExprLen(Keep(f, list)), 0
  {
    hide Filled, Fits, Tied, At, Meets, On, Eval, ExprAt, ExprLen, EvalWork, KeepLoop, Are, Is, Run, Step;
    KeepParts(I.G(c), I.slots, f, list, pc);
    AreIs(I.slots, pc + ExprLen(f) + ExprLen(list), KeepCode(pc + ExprLen(f) + ExprLen(list)), 0);
    KeepEval(I.p, fuel, c, f, list, st);
    var s := At(base, pc, floor, st, clo);
    var q := pc + ExprLen(f) + ExprLen(list);
    n, clo' := SimWork(I, c, base, f, list, pc, floor, st, clo, fuel, q + 17);
    var o := EvalWork(I.p, fuel, c, f, list, st);
    if o.Done? {
      NewList(I, s, n, base, q, KeepCode(q), o.v.0, o.v.1, floor, o.st, clo');
      var out, st1 := NewId(o.st), WithNew(o.st);
      var v, clo1, m := floor + [o.v.0, List(o.v.1), List(out)], clo', n;
      m, clo' := SimKeepLoop(I, c, base, q, floor, o.v.0, o.v.1, out, st1, clo1, fuel);
      OnMeets(I, s, n + 1, base, q + 2, v, st1, clo1, base, floor, q + 17, m, clo', fuel, fuel,
              OneGoal(KeepLoop(I.p, fuel, c, o.v.0, o.v.1, out, st1)));
      n := n + 1 + m;
    }
  }

  lemma {:induction false} KeepLoopEval(p: Prog, fuel: nat, c: Ctx, f: Value, work: nat, out: nat, st: St)
    ensures var items := Items(st.heap.lists, work);
            OneGoal(KeepLoop(p, fuel, c, f, work, out, st))
            == if items == [] then Done(Leaves([List(out)]), st)
               else match CallClosureValue(p, fuel, c, f, [FirstOf(items)], TakeFirst(st, work))
                    case Done(v, s) => (
                      match AsBool(v)
                      case Ok(b) =>
                        if fuel == 0 then OutOfFuel
                        else OneGoal(KeepLoop(p, Spent(fuel), c, f, work, out,
                                              Turn(c, if b then Append(s, out, FirstOf(items)) else s)))
                      case Err(e) => Raised(e, s))
                    case o => OneGoal(o)
  {
    hide CallClosureValue, Items, TakeFirst, Append, AsBool;
  }

  lemma {:induction false} SimKeepLoop(I: Image, c: Ctx, base: State, q: nat, floor: seq<Value>, f: Value, work: nat,
                                       out: nat, st: St, clo: seq<Clo<nat>>, fuel: nat)
    returns (n: nat, clo': seq<Clo<nat>>)
    requires Ready(I, c, base) && Tied(I, clo, st.closures) && Are(I.slots, q, KeepCode(q))
    ensures Meets(I, base, At(base, q + 2, floor + [f, List(work), List(out)], st, clo), floor, q + 17, n, clo', fuel,
                  OneGoal(KeepLoop(I.p, fuel, c, f, work, out, st)))
    decreases fuel, 0, 2
  {
    hide Filled, Fits, Tied, At, Meets, On, KeepLoop, CallClosureValue, Are, Is, Run, Step, Items, SetItems, AsBool;
    KeepLoopEval(I.p, fuel, c, f, work, out, st);
    var v := floor + [f, List(work), List(out)];
    var s := At(base, q + 2, v, st, clo);
    n := KeepEnter(I, c, base, q, floor, f, work, out, st, clo);
    clo' := clo;
    var items := Items(st.heap.lists, work);
    if items == [] {
      OnLands(I, s, n, base, q + 17, floor, [List(out)], st, clo, fuel);
    } else {
      var item, st1 := items[0], TakeFirst(st, work);
      var v1 := floor + [f, List(work), List(out), item];
      AreIs(I.slots, q, KeepCode(q), 6);
      n, clo' := NextCall(I, c, base, s, n, f, [item], q + 6, v1, st1, clo, fuel, floor, q + 17);
      var o := CallClosureValue(I.p, fuel, c, f, [item], st1);
      if o.Done? && AsBool(o.v).Err? {
        n := TestFails(I, s, n, base, q, KeepCode(q), 7, v1, o.v, AsBool(o.v).error, floor, q + 17, o.st, clo', fuel);
      } else if o.Done? {
        var keep := AsBool(o.v).value;
        var st2 := Turn(c, if keep then Append(o.st, out, item) else o.st);
        BoolIs(o.v);
        var m := KeepDecide(I, c, base, q, floor, f, work, out, item, keep, o.st, clo');
        OnTwo(I, s, n, base, q + 7, v1 + [o.v], o.st, clo', m, base, q + 2, v, st2, clo');
        if fuel == 0 {
          NoFuel(I, base, s, floor, q + 17, clo');
          n := 0;
        } else {
          var clo1, k := clo', n + m;
          n, clo' := SimKeepLoop(I, c, base, q, floor, f, work, out, st2, clo1, fuel - 1);
          OnMeets(I, s, k, base, q + 2, v, st2, clo1, base, floor, q + 17, n, clo', fuel, fuel - 1,
                  OneGoal(KeepLoop(I.p, fuel - 1, c, f, work, out, st2)));
          n := k + n;
        }
      }
    }
  }

  lemma BoolIs(v: Value)
    requires AsBool(v).Ok?
    ensures match AsBool(v) case Ok(b) => v == Bool(b) case Err(_) => true
  {
  }

  /** A conditional jump on something that is not a boolean. */
  lemma TestFails(I: Image, s: State, a: nat, base: State, q: nat, ins: seq<Instruction>, i: nat, values: seq<Value>,
                  v: Value, err: Error, floor: seq<Value>, next: nat, st: St, clo: seq<Clo<nat>>, fuel: nat)
    returns (n: nat)
    requires Filled(I) && Tied(I, clo, st.closures) && Are(I.slots, q, ins) && Branches(ins, i)
             && AsBool(v) == Err(err)
    requires On(I, s, a, base, q + i, values + [v], st, clo) && floor <= values
    ensures Meets(I, base, s, floor, next, n, clo, fuel, Raised(err, st))
  {
    hide Filled, Tied, At, Meets, Are, Is, Run, Step, AsBool;
    AreIs(I.slots, q, ins, i);
    BranchFails(I, base, q + i, values, v, ins[i].to, ins[i].when_, 0, err, st, clo, fuel);
    OnMeets(I, s, a, base, q + i, values + [v], st, clo, base, values, 0, 0, clo, fuel, fuel, Raised(err, st));
    n := a;
    Escape(I, base, base, s, floor, values, next, 0, n, clo, fuel, Raised(err, st));
  }

  lemma {:induction false} FindEval(p: Prog, fuel: nat, c: Ctx, f: Expr, list: Expr, st: St)
    ensures OneGoal(Eval(p, fuel, c, FindFirst(f, list), st))
            == match EvalWork(p, fuel, c, f, list, st)
               case Done(w, s) => OneGoal(FindLoop(p, fuel, c, w.0, w.1, s))
               case o => WorkGoal(o)
  {
    hide EvalWork, FindLoop, ApplyPrim, CallClosureValue, CallNamed, Capture, EvalAll, FoldWork, EvalLit;
    hide EvalLits, EvalReduce, EvalReduceDynamic, EvalShort, EvalTest, ExprLen, FoldLoop, KeepLoop, Lookup, Lower;
    hide MapLoop;
  }

  lemma {:induction false} SimFind(I: Image, c: Ctx, base: State, f: Expr, list: Expr, pc: nat, floor: seq<Value>,
                                   st: St, clo: seq<Clo<nat>>, fuel: nat)
    returns (n: nat, clo': seq<Clo<nat>>)
    requires Ready(I, c, base) && Tied(I, clo, st.closures) && ExprAt(I.G(c), I.slots, FindFirst(f, list), pc)
    ensures Meets(I, base, At(base, pc, floor, st, clo), floor, pc + ExprLen(FindFirst(f, list)), n, clo', fuel,
                  OneGoal(Eval(I.p, fuel, c, FindFirst(f, list), st)))
    decreases fuel, ExprLen(FindFirst(f, list)), 0
  {
    hide Filled, Fits, Tied, At, Meets, On, Eval, ExprAt, ExprLen, EvalWork, FindLoop, Are, Is, Run, Step;
    FindParts(I.G(c), I.slots, f, list, pc);
    AreIs(I.slots, pc + ExprLen(f) + ExprLen(list), FindCode(pc + ExprLen(f) + ExprLen(list)), 0);
    FindEval(I.p, fuel, c, f, list, st);
    var s := At(base, pc, floor, st, clo);
    var q := pc + ExprLen(f) + ExprLen(list);
    n, clo' := SimWork(I, c, base, f, list, pc, floor, st, clo, fuel, q + 14);
    var o := EvalWork(I.p, fuel, c, f, list, st);
    if o.Done? {
      var v, clo1, m := floor + [o.v.0, List(o.v.1)], clo', n;
      m, clo' := SimFindLoop(I, c, base, q, floor, o.v.0, o.v.1, o.st, clo1, fuel);
      OnMeets(I, s, n, base, q + 1, v, o.st, clo1, base, floor, q + 14, m, clo', fuel, fuel,
              OneGoal(FindLoop(I.p, fuel, c, o.v.0, o.v.1, o.st)));
      n := n + m;
    }
  }

  lemma {:induction false} FindLoopEval(p: Prog, fuel: nat, c: Ctx, f: Value, work: nat, st: St)
    ensures var items := Items(st.heap.lists, work);
            OneGoal(FindLoop(p, fuel, c, f, work, st))
            == if items == [] then Done(Leaves([Txt([])]), st)
               else match CallClosureValue(p, fuel, c, f, [FirstOf(items)], TakeFirst(st, work))
                    case Done(v, s) => (
                      match AsBool(v)
                      case Ok(b) =>
                        if b then Done(Leaves([FirstOf(items)]), s)
                        else if fuel == 0 then OutOfFuel
                        else OneGoal(FindLoop(p, Spent(fuel), c, f, work, Turn(c, s)))
                      case Err(e) => Raised(e, s))
                    case o => OneGoal(o)
  {
    hide CallClosureValue, Items, TakeFirst, AsBool;
  }

  lemma {:induction false} SimFindLoop(I: Image, c: Ctx, base: State, q: nat, floor: seq<Value>, f: Value, work: nat,
                                       st: St, clo: seq<Clo<nat>>, fuel: nat)
    returns (n: nat, clo': seq<Clo<nat>>)
    requires Ready(I, c, base) && Tied(I, clo, st.closures) && Are(I.slots, q, FindCode(q))
    ensures Meets(I, base, At(base, q + 1, floor + [f, List(work)], st, clo), floor, q + 14, n, clo', fuel,
                  OneGoal(FindLoop(I.p, fuel, c, f, work, st)))
    decreases fuel, 0, 2
  {
    hide Filled, Fits, Tied, At, Meets, On, FindLoop, CallClosureValue, Are, Is, Run, Step, Items, AsBool, TakeFirst;
    hide Turn;
    FindLoopEval(I.p, fuel, c, f, work, st);
    var v := floor + [f, List(work)];
    var s := At(base, q + 1, v, st, clo);
    n := FindEnter(I, c, base, q, floor, f, work, st, clo);
    clo' := clo;
    var items := Items(st.heap.lists, work);
    if items == [] {
      OnLands(I, s, n, base, q + 14, floor, [Txt([])], st, clo, fuel);
    } else {
      var item, st1 := items[0], TakeFirst(st, work);
      TakeFirstClosures(st, work);
      var v1 := floor + [f, List(work), item];
      AreIs(I.slots, q, FindCode(q), 5);
      n, clo' := NextCall(I, c, base, s, n, f, [item], q + 5, v1, st1, clo, fuel, floor, q + 14);
      var o := CallClosureValue(I.p, fuel, c, f, [item], st1);
      if o.Done? && AsBool(o.v).Err? {
        n := TestFails(I, s, n, base, q, FindCode(q), 6, v1, o.v, AsBool(o.v).error, floor, q + 14, o.st, clo', fuel);
      } else if o.Done? {
        var found := AsBool(o.v).value;
        BoolIs(o.v);
        var m := FindDecide(I, c, base, q, floor, f, work, item, found, o.st, clo');
        if found {
          OnTwo(I, s, n, base, q + 6, v1 + [o.v], o.st, clo', m, base, q + 14, floor + [item], o.st, clo');
          n := n + m;
          OnLands(I, s, n, base, q + 14, floor, [item], o.st, clo', fuel);
        } else {
          var st2 := Turn(c, o.st);
          TurnClosures(c, o.st);
          OnTwo(I, s, n, base, q + 6, v1 + [o.v], o.st, clo', m, base, q + 1, v, st2, clo');
          if fuel == 0 {
            NoFuel(I, base, s, floor, q + 14, clo');
            n := 0;
          } else {
            var clo1, k := clo', n + m;
            n, clo' := SimFindLoop(I, c, base, q, floor, f, work, st2, clo1, fuel - 1);
            OnMeets(I, s, k, base, q + 1, v, st2, clo1, base, floor, q + 14, n, clo', fuel, fuel - 1,
                    OneGoal(FindLoop(I.p, fuel - 1, c, f, work, st2)));
            n := k + n;
          }
        }
      }
    }
  }

  lemma TakeFirstClosures(st: St, work: nat)
    ensures TakeFirst(st, work).closures == st.closures
  {
  }

  lemma TurnClosures(c: Ctx, st: St)
    ensures Turn(c, st).closures == st.closures
  {
  }

  /** The list, its private copy, and the closure. */
  function FoldWork(p: Prog, fuel: nat, c: Ctx, f: Expr, list: Expr, st: St): Out<(Value, nat)> {
    var (lv, s) :- Eval(p, fuel, c, list, st);
    var (work, s1) :- CopyList(p, lv, s);
    var (fv, s2) :- Eval(p, fuel, c, f, s1);
    Done((fv, WorkId(work)), s2)
  }

  lemma {:induction false} FoldEval(p: Prog, fuel: nat, c: Ctx, f: Expr, list: Expr, st: St)
    ensures OneGoal(Eval(p, fuel, c, FoldWith(f, list), st))
            == match FoldWork(p, fuel, c, f, list, st)
               case Done(w, s) =>
                 var items := Items(s.heap.lists, w.1);
                 if items == [] then Done(Leaves([Num(0.0)]), s)
                 else OneGoal(FoldLoop(p, fuel, c, w.0, w.1, FirstOf(items), TakeFirst(s, w.1)))
               case o => WorkGoal(o)
  {
    hide CopyList, WorkId, FoldLoop, Items, TakeFirst, ApplyPrim, CallClosureValue, CallNamed, Capture, EvalAll;
    hide EvalLit;
    hide EvalLits, EvalReduce, EvalReduceDynamic, EvalShort, EvalTest, EvalWork, ExprLen, FindLoop, KeepLoop, Lookup;
    hide Lower, MapLoop;
  }

  lemma {:induction false} SimFold(I: Image, c: Ctx, base: State, f: Expr, list: Expr, pc: nat, floor: seq<Value>,
                                   st: St, clo: seq<Clo<nat>>, fuel: nat)
    returns (n: nat, clo': seq<Clo<nat>>)
    requires Ready(I, c, base) && Tied(I, clo, st.closures) && ExprAt(I.G(c), I.slots, FoldWith(f, list), pc)
    ensures Meets(I, base, At(base, pc, floor, st, clo), floor, pc + ExprLen(FoldWith(f, list)), n, clo', fuel,
                  OneGoal(Eval(I.p, fuel, c, FoldWith(f, list), st)))
    decreases fuel, ExprLen(FoldWith(f, list)), 0
  {
    hide Filled, Fits, Tied, At, Meets, On, Eval, ExprAt, ExprLen, FoldWork, FoldLoop, Are, Is, Run, Step, Items;
    hide TakeFirst;
    FoldParts(I.G(c), I.slots, f, list, pc);
    FoldEval(I.p, fuel, c, f, list, st);
    var s := At(base, pc, floor, st, clo);
    var q := pc + ExprLen(list) + 1 + ExprLen(f);
    n, clo' := SimFoldWork(I, c, base, f, list, pc, floor, st, clo, fuel, q + 15);
    var o := FoldWork(I.p, fuel, c, f, list, st);
    if o.Done? {
      var v := floor + [List(o.v.1), o.v.0];
      var items := Items(o.st.heap.lists, o.v.1);
      var m := FoldEnter(I, c, base, q, floor, o.v.0, o.v.1, o.st, clo');
      if items == [] {
        OnTwo(I, s, n, base, q, v, o.st, clo', m, base, q + 15, floor + [Num(0.0)], o.st, clo');
        n := n + m;
        OnLands(I, s, n, base, q + 15, floor, [Num(0.0)], o.st, clo', fuel);
      } else {
        var st1 := TakeFirst(o.st, o.v.1);
        TakeFirstClosures(o.st, o.v.1);
        var v1 := floor + [List(o.v.1), o.v.0, items[0]];
        OnTwo(I, s, n, base, q, v, o.st, clo', m, base, q + 2, v1, st1, clo');
        var clo1, k := clo', n + m;
        n, clo' := SimFoldLoop(I, c, base, q, floor, o.v.0, o.v.1, items[0], st1, clo1, fuel);
        OnMeets(I, s, k, base, q + 2, v1, st1, clo1, base, floor, q + 15, n, clo', fuel, fuel,
                OneGoal(FoldLoop(I.p, fuel, c, o.v.0, o.v.1, items[0], st1)));
        n := k + n;
      }
    }
  }

  lemma {:induction false} SimFoldWork(I: Image, c: Ctx, base: State, f: Expr, list: Expr, pc: nat, floor: seq<Value>,
                                       st: St, clo: seq<Clo<nat>>, fuel: nat, next: nat)
    returns (n: nat, clo': seq<Clo<nat>>)
    requires Ready(I, c, base) && Tied(I, clo, st.closures)
    requires ExprAt(I.G(c), I.slots, list, pc) && ExprAt(I.G(c), I.slots, f, pc + ExprLen(list) + 1)
    requires Is(I.slots, pc + ExprLen(list), Variadic(MakeList, Dynamic))
    ensures var s := At(base, pc, floor, st, clo);
            match FoldWork(I.p, fuel, c, f, list, st)
            case Done(p, st') =>
              && On(I, s, n, base, pc + ExprLen(list) + 1 + ExprLen(f), floor + [List(p.1), p.0], st', clo')
              && Tied(I, clo', st'.closures)
            case o => Meets(I, base, s, floor, next, n, clo', fuel, WorkGoal(o))
    decreases fuel, ExprLen(f) + ExprLen(list), 4
  {
    hide Filled, Fits, Tied, At, Meets, On, Eval, ExprAt, ExprLen, Run, Step, Is, CopyList, Items, WorkId;
    var s := At(base, pc, floor, st, clo);
    var a := pc + ExprLen(list);
    Start(I, base, pc, floor, st, clo);
    n, clo' := NextExpr(I, c, base, s, 0, list, pc, floor, st, clo, fuel, floor, next);
    var l := Eval(I.p, fuel, c, list, st);
    if l.Done? {
      n := NextCopy(I, base, s, n, a, floor, l.v, l.st, clo', fuel, floor, next);
      var w := CopyList(I.p, l.v, l.st);
      if w.Done? {
        var work := List(WorkId(w.v));
        n, clo' := NextExpr(I, c, base, s, n, f, a + 1, floor + [work], w.st, clo', fuel, floor, next);
        var o := Eval(I.p, fuel, c, f, w.st);
        assert o.Done? ==> floor + [work] + [o.v] == floor + [work, o.v];
      }
    }
  }

  lemma {:induction false} FoldLoopEval(p: Prog, fuel: nat, c: Ctx, f: Value, work: nat, acc: Value, st: St)
    ensures var items := Items(st.heap.lists, work);
            OneGoal(FoldLoop(p, fuel, c, f, work, acc, st))
            == if items == [] then Done(Leaves([acc]), st)
               else match CallClosureValue(p, fuel, c, f, [acc, FirstOf(items)], TakeFirst(st, work))
                    case Done(v, s) =>
                      if fuel == 0 then OutOfFuel
                      else OneGoal(FoldLoop(p, Spent(fuel), c, f, work, v, Turn(c, s)))
                    case o => OneGoal(o)
  {
    hide CallClosureValue, Items, TakeFirst;
  }

  lemma {:induction false} SimFoldLoop(I: Image, c: Ctx, base: State, q: nat, floor: seq<Value>, f: Value, work: nat,
                                       acc: Value, st: St, clo: seq<Clo<nat>>, fuel: nat)
    returns (n: nat, clo': seq<Clo<nat>>)
    requires Ready(I, c, base) && Tied(I, clo, st.closures) && Are(I.slots, q, FoldCode(q))
    ensures Meets(I, base, At(base, q + 2, floor + [List(work), f, acc], st, clo), floor, q + 15, n, clo', fuel,
                  OneGoal(FoldLoop(I.p, fuel, c, f, work, acc, st)))
    decreases fuel, 0, 2
  {
    hide Filled, Fits, Tied, At, Meets, On, FoldLoop, CallClosureValue, Are, Is, Run, Step, Items, TakeFirst, Turn;
    FoldLoopEval(I.p, fuel, c, f, work, acc, st);
    var v := floor + [List(work), f, acc];
    var s := At(base, q + 2, v, st, clo);
    n := FoldRound(I, c, base, q, floor, f, work, acc, st, clo);
    clo' := clo;
    var items := Items(st.heap.lists, work);
    if items == [] {
      OnLands(I, s, n, base, q + 15, floor, [acc], st, clo, fuel);
    } else {
      var st1 := TakeFirst(st, work);
      TakeFirstClosures(st, work);
      var b := floor + [List(work), f];
      AreIs(I.slots, q, FoldCode(q), 6);
      n, clo' := NextCall(I, c, base, s, n, f, [acc, items[0]], q + 6, b, st1, clo, fuel, floor, q + 15);
      var o := CallClosureValue(I.p, fuel, c, f, [acc, items[0]], st1);
      if o.Done? {
        var st2 := Turn(c, o.st);
        TurnClosures(c, o.st);
        var v1 := floor + [List(work), f, o.v];
        assert b + [o.v] == v1;
        var m := FoldBack(I, c, base, q, v1, o.st, clo');
        OnTwo(I, s, n, base, q + 7, v1, o.st, clo', m, base, q + 2, v1, st2, clo');
        if fuel == 0 {
          NoFuel(I, base, s, floor, q + 15, clo');
          n := 0;
        } else {
          var clo1, k := clo', n + m;
          n, clo' := SimFoldLoop(I, c, base, q, floor, f, work, o.v, st2, clo1, fuel - 1);
          OnMeets(I, s, k, base, q + 2, v1, st2, clo1, base, floor, q + 15, n, clo', fuel, fuel - 1,
                  OneGoal(FoldLoop(I.p, fuel - 1, c, f, work, o.v, st2)));
          n := k + n;
        }
      }
    }
  }

  // ----- statements -----

  lemma StmtEscapes(o: Out<Option<Value>>)
    ensures match o
            case Done(None, st) => StmtGoal(o) == Done(Leaves([]), st)
            case _ => Escapes(StmtGoal(o))
  {
  }

  lemma {:induction false} SimStmts(I: Image, c: Ctx, base: State, ss: seq<Stmt>, pc: nat, floor: seq<Value>, st: St,
                                    clo: seq<Clo<nat>>, fuel: nat)
    returns (n: nat, clo': seq<Clo<nat>>)
    requires Ready(I, c, base) && Tied(I, clo, st.closures) && StmtsAt(I.G(c), I.slots, ss, pc)
    ensures Meets(I, base, At(base, pc, floor, st, clo), floor, pc + StmtsLen(ss), n, clo', fuel,
                  StmtGoal(ExecAll(I.p, fuel, c, ss, st)))
    decreases fuel, StmtsLen(ss), |ss| + 3
  {
    hide Filled, Fits, Tied, At, Meets, On, Exec1, StmtAt, StmtLen, Run, Step;
    var s := At(base, pc, floor, st, clo);
    assert floor + [] == floor;
    Start(I, base, pc, floor, st, clo);
    if ss == [] {
      n, clo' := 0, clo;
      OnLands(I, s, 0, base, pc, floor, [], st, clo, fuel);
    } else {
      var q := pc + StmtLen(ss[0]);
      var end := pc + StmtsLen(ss);
      n, clo' := SimStmt(I, c, base, ss[0], pc, floor, st, clo, fuel);
      var o := Exec1(I.p, fuel, c, ss[0], st);
      StmtEscapes(o);
      Continue(I, s, 0, base, pc, floor, st, clo, q, n, clo', fuel, StmtGoal(o), floor, end);
      if o.Done? && o.v.None? {
        var clo1 := clo';
        var m;
        m, clo' := SimStmts(I, c, base, ss[1..], q, floor, o.st, clo1, fuel);
        OnMeets(I, s, n, base, q, floor, o.st, clo1, base, floor, end, m, clo', fuel, fuel,
                StmtGoal(ExecAll(I.p, fuel, c, ss[1..], o.st)));
        n := n + m;
      }
    }
  }

  lemma {:induction false} NextStmts(I: Image, c: Ctx, base: State, s: State, a: nat, ss: seq<Stmt>, pc: nat,
                                     values: seq<Value>, st: St, clo: seq<Clo<nat>>, fuel: nat, floor: seq<Value>,
                                     next: nat) returns (n: nat, clo': seq<Clo<nat>>)
    requires Ready(I, c, base) && Tied(I, clo, st.closures) && StmtsAt(I.G(c), I.slots, ss, pc)
    requires On(I, s, a, base, pc, values, st, clo) && floor <= values
    ensures match ExecAll(I.p, fuel, c, ss, st)
            case Done(None, st') =>
              On(I, s, n, base, pc + StmtsLen(ss), values, st', clo') && Tied(I, clo', st'.closures)
            case o => Meets(I, base, s, floor, next, n, clo', fuel, StmtGoal(o))
    decreases fuel, StmtsLen(ss), |ss| + 4
  {
    hide *;
    n, clo' := SimStmts(I, c, base, ss, pc, values, st, clo, fuel);
    var o := ExecAll(I.p, fuel, c, ss, st);
    StmtEscapes(o);
    Continue(I, s, a, base, pc, values, st, clo, pc + StmtsLen(ss), n, clo', fuel, StmtGoal(o), floor, next);
    assert values + [] == values;
    n := a + n;
  }

  lemma {:induction false} SimStmt(I: Image, c: Ctx, base: State, t: Stmt, pc: nat, floor: seq<Value>, st: St,
                                   clo: seq<Clo<nat>>, fuel: nat)
    returns (n: nat, clo': seq<Clo<nat>>)
    requires Ready(I, c, base) && Tied(I, clo, st.closures) && StmtAt(I.G(c), I.slots, t, pc)
    ensures Meets(I, base, At(base, pc, floor, st, clo), floor, pc + StmtLen(t), n, clo', fuel,
                  StmtGoal(Exec1(I.p, fuel, c, t, st)))
    decreases fuel, StmtLen(t), 2
  {
    hide *;
    match t
    case Warp(body) => n, clo' := SimWarp(I, c, base, body, pc, floor, st, clo, fuel);
    case InfLoop(body) => n, clo' := SimInfLoop(I, c, base, body, pc, floor, st, clo, fuel);
    case UntilLoop(cond, body) => n, clo' := SimUntilLoop(I, c, base, cond, body, pc, floor, st, clo, fuel);
    case Repeat(times, body) => n, clo' := SimRepeat(I, c, base, times, body, pc, floor, st, clo, fuel);
    case ForLoop(_, _, _, _) => n, clo' := SimForLoop(I, c, base, t, pc, floor, st, clo, fuel);
    case ForeachLoop(v, items, body) => n, clo' := SimForeachLoop(I, c, base, v, items, body, pc, floor, st, clo, fuel);
    case If(cond, then_) => n, clo' := SimIf(I, c, base, cond, then_, pc, floor, st, clo, fuel);
    case IfElse(_, _, _) => n, clo' := SimIfElse(I, c, base, t, pc, floor, st, clo, fuel);
    case TryCatch(_, _, _) => n, clo' := SimTryCatch(I, c, base, t, pc, floor, st, clo, fuel);
    case RunFn(_, _, _) => n, clo' := SimRun(I, c, base, t, pc, floor, st, clo, fuel);
    case RunValue(_, _) => n, clo' := SimRun(I, c, base, t, pc, floor, st, clo, fuel);
    case _ => n, clo' := SimPlain(I, c, base, t, pc, floor, st, clo, fuel);
  }

  lemma {:induction false} SimPlain(I: Image, c: Ctx, base: State, t: Stmt, pc: nat, floor: seq<Value>, st: St,
                                    clo: seq<Clo<nat>>, fuel: nat)
    returns (n: nat, clo': seq<Clo<nat>>)
    requires Ready(I, c, base) && Tied(I, clo, st.closures) && StmtAt(I.G(c), I.slots, t, pc)
    requires t.SetVar? || t.ChangeVar? || t.DeclareLocals? || t.Do? || t.ReturnValue?
    ensures Meets(I, base, At(base, pc, floor, st, clo), floor, pc + StmtLen(t), n, clo', fuel,
                  StmtGoal(Exec1(I.p, fuel, c, t, st)))
    decreases fuel, StmtLen(t), 1
  {
    hide Filled, Fits, Tied, At, Meets, On, EvalAll, Eval, ExprAt, ExprsAt, Prim, ExecAll, StmtsAt, DeclareAllIn;
    hide DeclaresAt, SetVariable, ChangeVariable, Quiet, ExprLen, ExprsLen, CallNamed, CallClosureValue, Is, Are, Run;
    hide Step, Callable, EvalTest, ForAt, RunForever, RunRepeat, RunUntil, StmtsLen;
    var s := At(base, pc, floor, st, clo);
    Start(I, base, pc, floor, st, clo);
    if t.Do? {
      var q := pc + ExprsLen(t.args);
      n, clo' := NextExprs(I, c, base, s, 0, t.args, pc, floor, st, clo, fuel, floor, q + 1);
      var o := EvalAll(I.p, fuel, c, t.args, st);
      if o.Done? {
        var m := QuietMeets(I, base, q, floor, LowerDo(t.op), o.v, o.st, clo', fuel);
        OnMeets(I, s, n, base, q, floor + o.v, o.st, clo', base, floor, q + 1, m, clo', fuel, fuel,
                StmtGoal(Quiet(ApplyPrim(I.p, LowerDo(t.op), o.v, o.st))));
        n := n + m;
      }
    } else if t.DeclareLocals? {
      n, clo' := |t.names|, clo;
      DeclareAllGoes(I, base, pc, floor, t.names, st, clo);
      DeclaredClosures(st, t.names);
      RunOn(I, s, n, base, pc + n, floor, DeclareAllIn(st, t.names), clo);
      assert floor + [] == floor;
      OnLands(I, s, n, base, pc + n, floor, [], DeclareAllIn(st, t.names), clo, fuel);
    } else {
      var q := pc + ExprLen(t.value);
      n, clo' := NextExpr(I, c, base, s, 0, t.value, pc, floor, st, clo, fuel, floor, q + 1);
      var o := Eval(I.p, fuel, c, t.value, st);
      if o.Done? {
        if t.ReturnValue? {
          AboutToReturn(I, s, n, base, q, floor, o.v, o.st, clo', fuel, q + 1);
        } else if t.SetVar? {
          var m := AssignMeets(I, base, q, floor, t.name, o.v, o.st, clo', fuel);
          OnMeets(I, s, n, base, q, floor + [o.v], o.st, clo', base, floor, q + 1, m, clo', fuel, fuel,
                  StmtGoal(SetVariable(I.p, o.st, t.name, o.v)));
          n := n + m;
        } else {
          var m := ChangeMeets(I, base, q, floor, t.name, o.v, o.st, clo', fuel);
          OnMeets(I, s, n, base, q, floor + [o.v], o.st, clo', base, floor, q + 1, m, clo', fuel, fuel,
                  StmtGoal(ChangeVariable(I.p, o.st, t.name, o.v)));
          n := n + m;
        }
      }
    }
  }

  lemma {:induction false} SimRun(I: Image, c: Ctx, base: State, t: Stmt, pc: nat, floor: seq<Value>, st: St,
                                  clo: seq<Clo<nat>>, fuel: nat)
    returns (n: nat, clo': seq<Clo<nat>>)
    requires Ready(I, c, base) && Tied(I, clo, st.closures) && StmtAt(I.G(c), I.slots, t, pc)
             && (t.RunFn? || t.RunValue?)
    ensures Meets(I, base, At(base, pc, floor, st, clo), floor, pc + StmtLen(t), n, clo', fuel,
                  StmtGoal(Exec1(I.p, fuel, c, t, st)))
    decreases fuel, StmtLen(t), 0
  {
    hide Filled, Fits, Tied, At, Meets, On, EvalAll, Eval, ExprAt, ExprsAt, Prim, ExecAll, StmtsAt, DeclareAllIn;
    hide DeclaresAt, ExprLen, ExprsLen, CallNamed, CallClosureValue, Run, Step, Callable, ApplyPrim, Arity, BinaryOn;
    hide EvalTest, ForAt, Lookup, LowerDo, RunForever, RunRepeat, RunUntil, StmtsLen;
    var s := At(base, pc, floor, st, clo);
    if t.RunFn? {
      var q := pc + |t.upvars| + ExprsLen(t.args) + 1;
      n, clo' := SimNamed(I, c, base, t.function_, t.args, t.upvars, pc, floor, st, clo, fuel);
      var r := EvalAll(I.p, fuel, c, t.args, DeclareAllIn(st, t.upvars));
      var o := if r.Done? then CallNamed(I.p, fuel, c, t.function_, r.v, r.st) else Failing(r);
      n := ThenDiscard(I, base, s, floor, q, n, clo', fuel, o);
    } else {
      var q := pc + ExprLen(t.closure) + ExprsLen(t.args) + 1;
      AreIs(I.slots, q - 1, [CallClosure(false, |t.args|), PopValue], 0);
      AreIs(I.slots, q - 1, [CallClosure(false, |t.args|), PopValue], 1);
      n, clo' := SimApply(I, c, base, t.closure, t.args, pc, floor, st, clo, fuel);
      var f := Eval(I.p, fuel, c, t.closure, st);
      var r := if f.Done? then EvalAll(I.p, fuel, c, t.args, f.st) else Failing(f);
      var o := if r.Done? then CallClosureValue(I.p, fuel, c, f.v, r.v, r.st) else Failing(r);
      n := ThenDiscard(I, base, s, floor, q, n, clo', fuel, o);
    }
  }

  function Failing<T, U>(o: Out<T>): Out<U> {
    match o case Raised(err, st) => Raised(err, st) case _ => OutOfFuel
  }

  /** A call as a statement drops what it reports. */
  lemma ThenDiscard(I: Image, base: State, s: State, floor: seq<Value>, q: nat, a: nat, clo: seq<Clo<nat>>, fuel: nat,
                    o: Out<Value>) returns (n: nat)
    requires base.calls != [] && Filled(I) && Is(I.slots, q, PopValue)
             && Meets(I, base, s, floor, q, a, clo, fuel, OneGoal(o))
    ensures Meets(I, base, s, floor, q + 1, n, clo, fuel, StmtGoal(Discard(o)))
  {
    hide Filled, Tied, At, Meets, On, Is, Run, Step;
    OneEscapes(o);
    n := a;
    if o.Done? {
      MeetsOn(I, base, s, floor, q, a, clo, fuel, [o.v], o.st);
      PopGoes(I, base, q, floor, o.v, o.st, clo);
      RunOn(I, At(base, q, floor + [o.v], o.st, clo), 1, base, q + 1, floor, o.st, clo);
      OnTwo(I, s, a, base, q, floor + [o.v], o.st, clo, 1, base, q + 1, floor, o.st, clo);
      n := a + 1;
      assert floor + [] == floor;
      OnLands(I, s, n, base, q + 1, floor, [], o.st, clo, fuel);
    } else {
      Escape(I, base, base, s, floor, floor, q + 1, q, a, clo, fuel, OneGoal(o));
    }
  }

  function Warping(c: Ctx): Ctx {
    c.(warp := c.warp + 1)
  }

  lemma WarpFits(c: Ctx, base: State)
    requires Fits(c, base)
    ensures Fits(Warping(c), Warped(base))
  {
  }

  lemma {:induction false} SimWarp(I: Image, c: Ctx, base: State, body: seq<Stmt>, pc: nat, floor: seq<Value>, st: St,
                                   clo: seq<Clo<nat>>, fuel: nat)
    returns (n: nat, clo': seq<Clo<nat>>)
    requires Ready(I, c, base) && Tied(I, clo, st.closures) && StmtAt(I.G(c), I.slots, Warp(body), pc)
    ensures Meets(I, base, At(base, pc, floor, st, clo), floor, pc + StmtLen(Warp(body)), n, clo', fuel,
                  StmtGoal(Exec1(I.p, fuel, c, Warp(body), st)))
    decreases fuel, StmtLen(Warp(body)), 0
  {
    hide Filled, Fits, Tied, At, Meets, On, ExecAll, StmtsAt, StmtsLen, Run, Step, Is, ApplyPrim, Are, Arity;
    hide BinaryOn, CallClosureValue, CallNamed, Callable, Eval, EvalAll, EvalTest, ExprAt;
    hide ExprLen, ExprsAt, ExprsLen, ForAt, Lookup, LowerDo, RunForever, RunRepeat, RunUntil;
    var s := At(base, pc, floor, st, clo);
    var base', c' := Warped(base), Warping(c);
    var q := pc + 1 + StmtsLen(body);
    WarpFits(c, base);
    WarpStartGoes(I, base, pc, floor, st, clo);
    RunOn(I, s, 1, base', pc + 1, floor, st, clo);
    n, clo' := NextStmts(I, c', base', s, 1, body, pc + 1, floor, st, clo, fuel, floor, q + 1);
    var o := ExecAll(I.p, fuel, c', body, st);
    StmtEscapes(o);
    if o.Done? && o.v.None? {
      WarpStopGoes(I, base, q, floor, o.st, clo');
      RunOn(I, At(base', q, floor, o.st, clo'), 1, base, q + 1, floor, o.st, clo');
      OnTwo(I, s, n, base', q, floor, o.st, clo', 1, base, q + 1, floor, o.st, clo');
      n := n + 1;
      assert floor + [] == floor;
      OnLands(I, s, n, base, q + 1, floor, [], o.st, clo', fuel);
    } else {
      Escape(I, base, base', s, floor, floor, q + 1, q + 1, n, clo', fuel, StmtGoal(o));
    }
  }

  lemma {:induction false} SimIf(I: Image, c: Ctx, base: State, cond: Expr, then_: seq<Stmt>, pc: nat,
                                 floor: seq<Value>, st: St, clo: seq<Clo<nat>>, fuel: nat)
    returns (n: nat, clo': seq<Clo<nat>>)
    requires Ready(I, c, base) && Tied(I, clo, st.closures) && StmtAt(I.G(c), I.slots, If(cond, then_), pc)
    ensures Meets(I, base, At(base, pc, floor, st, clo), floor, pc + StmtLen(If(cond, then_)), n, clo', fuel,
                  StmtGoal(Exec1(I.p, fuel, c, If(cond, then_), st)))
    decreases fuel, StmtLen(If(cond, then_)), 0
  {
    hide Filled, Fits, Tied, At, Meets, On, ExecAll, StmtsAt, StmtsLen, EvalTest, ExprAt, ExprLen, Run, Step, Is;
    hide ApplyPrim, Are, Arity, BinaryOn, CallClosureValue, CallNamed, Callable, Eval, EvalAll;
    hide ExprsAt, ExprsLen, ForAt, Lookup, LowerDo, RunForever, RunRepeat, RunUntil;
    var s := At(base, pc, floor, st, clo);
    var a := pc + ExprLen(cond);
    var end := a + 1 + StmtsLen(then_);
    n, clo' := SimBranch(I, c, base, cond, end, false, pc, floor, st, clo, fuel, end);
    var o := EvalTest(I.p, fuel, c, cond, st);
    if o.Done? && o.v {
      var clo1, m := clo', n;
      m, clo' := SimStmts(I, c, base, then_, a + 1, floor, o.st, clo1, fuel);
      OnMeets(I, s, n, base, a + 1, floor, o.st, clo1, base, floor, end, m, clo', fuel, fuel,
              StmtGoal(ExecAll(I.p, fuel, c, then_, o.st)));
      n := n + m;
    } else if o.Done? {
      assert floor + [] == floor;
      OnLands(I, s, n, base, end, floor, [], o.st, clo', fuel);
    }
  }

  lemma {:induction false} SimIfElse(I: Image, c: Ctx, base: State, t: Stmt, pc: nat, floor: seq<Value>, st: St,
                                     clo: seq<Clo<nat>>, fuel: nat)
    returns (n: nat, clo': seq<Clo<nat>>)
    requires Ready(I, c, base) && Tied(I, clo, st.closures) && StmtAt(I.G(c), I.slots, t, pc) && t.IfElse?
    ensures Meets(I, base, At(base, pc, floor, st, clo), floor, pc + StmtLen(t), n, clo', fuel,
                  StmtGoal(Exec1(I.p, fuel, c, t, st)))
    decreases fuel, StmtLen(t), 0
  {
    hide Filled, Fits, Tied, At, Meets, On, ExecAll, StmtsAt, StmtsLen, EvalTest, ExprAt, ExprLen, Run, Step, Is;
    hide ApplyPrim, Are, Arity, BinaryOn, CallClosureValue, CallNamed, Callable, Eval, EvalAll;
    hide ExprsAt, ExprsLen, ForAt, Lookup, LowerDo, RunForever, RunRepeat, RunUntil;
    var s := At(base, pc, floor, st, clo);
    var a := pc + ExprLen(t.cond);
    var b := a + 1 + StmtsLen(t.then_);
    var end := b + 1 + StmtsLen(t.else_);
    n, clo' := SimBranch(I, c, base, t.cond, b + 1, false, pc, floor, st, clo, fuel, end);
    var o := EvalTest(I.p, fuel, c, t.cond, st);
    if o.Done? {
      var clo1, m := clo', n;
      if o.v {
        var r := StmtGoal(ExecAll(I.p, fuel, c, t.then_, o.st));
        m, clo' := SimStmts(I, c, base, t.then_, a + 1, floor, o.st, clo1, fuel);
        m := ThenJump(I, base, At(base, a + 1, floor, o.st, clo1), floor, b, end, m, clo', fuel, r);
        OnMeets(I, s, n, base, a + 1, floor, o.st, clo1, base, floor, end, m, clo', fuel, fuel, r);
      } else {
        m, clo' := SimStmts(I, c, base, t.else_, b + 1, floor, o.st, clo1, fuel);
        OnMeets(I, s, n, base, b + 1, floor, o.st, clo1, base, floor, end, m, clo', fuel, fuel,
                StmtGoal(ExecAll(I.p, fuel, c, t.else_, o.st)));
      }
      n := n + m;
    }
  }

  lemma GuardFits(c: Ctx, base: State, pos: nat, name: Str, floor: seq<Value>)
    requires Fits(c, base)
    ensures Fits(c, Guarded(base, pos, name, floor))
    ensures Guarded(base, pos, name, floor).calls == base.calls
            && base.handlers <= Guarded(base, pos, name, floor).handlers
  {
  }

  /** After the guarded statements: drop the handler and skip the rescue code, or recover. */
  lemma {:induction false} SimTryCatch(I: Image, c: Ctx, base: State, t: Stmt, pc: nat, floor: seq<Value>, st: St,
                                       clo: seq<Clo<nat>>, fuel: nat)
    returns (n: nat, clo': seq<Clo<nat>>)
    requires Ready(I, c, base) && Tied(I, clo, st.closures) && StmtAt(I.G(c), I.slots, t, pc) && t.TryCatch?
    ensures Meets(I, base, At(base, pc, floor, st, clo), floor, pc + StmtLen(t), n, clo', fuel,
                  StmtGoal(Exec1(I.p, fuel, c, t, st)))
    decreases fuel, StmtLen(t), 0
  {
    hide Filled, Fits, Tied, At, Meets, On, ExecAll, StmtsAt, StmtsLen, Run, Step, Guarded, Caught, Are, ApplyPrim;
    hide Arity, BinaryOn, CallClosureValue, CallNamed, Callable, Eval, EvalAll, EvalTest;
    hide ExprAt, ExprLen, ExprsAt, ExprsLen, ForAt, Lookup, LowerDo, RunForever, RunRepeat, RunUntil;
    var s := At(base, pc, floor, st, clo);
    var a := pc + 1 + StmtsLen(t.body);
    var end := a + 3 + StmtsLen(t.handler);
    var code := [PopHandler, Jump(end), PopHandler];
    var base' := Guarded(base, a + 2, t.name, floor);
    GuardFits(c, base, a + 2, t.name, floor);
    PushHandlerGoes(I, base, pc, floor, a + 2, t.name, st, clo);
    RunOn(I, s, 1, base', pc + 1, floor, st, clo);
    n, clo' := NextStmts(I, c, base', s, 1, t.body, pc + 1, floor, st, clo, fuel, floor, end);
    var o := ExecAll(I.p, fuel, c, t.body, st);
    StmtEscapes(o);
    if o.Done? && o.v.None? {
      AreIs(I.slots, a, code, 0);
      PopHandlerGoes(I, base, a, floor, a + 2, t.name, o.st, clo');
      RunOn(I, At(base', a, floor, o.st, clo'), 1, base, a + 1, floor, o.st, clo');
      OnTwo(I, s, n, base', a, floor, o.st, clo', 1, base, a + 1, floor, o.st, clo');
      JumpTo(I, s, n + 1, base, a, code, 1, floor, o.st, clo');
      n := n + 2;
      assert floor + [] == floor;
      OnLands(I, s, n, base, end, floor, [], o.st, clo', fuel);
    } else if o.Raised? {
      n, clo' := SimRescue(I, c, base, s, t.name, t.handler, a, floor, n, clo', fuel, end, o.err, o.st, a + 2, end);
    } else {
      Escape(I, base, base', s, floor, floor, end, end, n, clo', fuel, StmtGoal(o));
    }
  }

  lemma CaughtClosures(p: Prog, st: St, name: Str, err: Error)
    ensures Caught(p, st, name, err).closures == st.closures
  {
  }

  lemma {:induction false} SimRescue(I: Image, c: Ctx, base: State, s: State, name: Str, handler: seq<Stmt>, a: nat,
                                     floor: seq<Value>, m: nat, clo: seq<Clo<nat>>, fuel: nat, next: nat, err: Error,
                                     st: St, h: nat, end: nat)
    returns (n: nat, clo': seq<Clo<nat>>)
    requires Ready(I, c, base) && StmtsAt(I.G(c), I.slots, handler, a + 3)
    requires end == a + 3 + StmtsLen(handler) && Are(I.slots, a, [PopHandler, Jump(end), PopHandler])
    requires h == a + 2 && Meets(I, Guarded(base, h, name, floor), s, floor, next, m, clo, fuel, Raised(err, st))
    ensures Meets(I, base, s, floor, end, n, clo', fuel,
                  StmtGoal(ExecAll(I.p, fuel, c, handler, Caught(I.p, st, name, err))))
    decreases fuel, StmtsLen(handler), |handler| + 5
  {
    hide Filled, Fits, Tied, At, Meets, On, ExecAll, StmtsAt, StmtsLen, Run, Step, Guarded, Caught, Are;
    var code := [PopHandler, Jump(end), PopHandler];
    var base' := Guarded(base, a + 2, name, floor);
    var st' := Caught(I.p, st, name, err);
    GuardFits(c, base, a + 2, name, floor);
    Recovers(I, base, s, floor, a + 2, name, next, m, clo, fuel, err, st);
    CaughtClosures(I.p, st, name, err);
    RunOn(I, s, m + 1, base', a + 2, floor, st', clo);
    AreIs(I.slots, a, code, 2);
    PopHandlerGoes(I, base, a + 2, floor, a + 2, name, st', clo);
    RunOn(I, At(base', a + 2, floor, st', clo), 1, base, a + 3, floor, st', clo);
    OnTwo(I, s, m + 1, base', a + 2, floor, st', clo, 1, base, a + 3, floor, st', clo);
    n, clo' := SimStmts(I, c, base, handler, a + 3, floor, st', clo, fuel);
    OnMeets(I, s, m + 2, base, a + 3, floor, st', clo, base, floor, end, n, clo', fuel, fuel,
            StmtGoal(ExecAll(I.p, fuel, c, handler, st')));
    n := n + m + 2;
  }

  // ----- loops -----

  lemma {:induction false} SimInfLoop(I: Image, c: Ctx, base: State, body: seq<Stmt>, pc: nat, floor: seq<Value>,
                                      st: St, clo: seq<Clo<nat>>, fuel: nat)
    returns (n: nat, clo': seq<Clo<nat>>)
    requires Ready(I, c, base) && Tied(I, clo, st.closures) && StmtAt(I.G(c), I.slots, InfLoop(body), pc)
    ensures Meets(I, base, At(base, pc, floor, st, clo), floor, pc + StmtLen(InfLoop(body)), n, clo', fuel,
                  StmtGoal(Exec1(I.p, fuel, c, InfLoop(body), st)))
    decreases fuel, StmtLen(InfLoop(body)), 0
  {
    hide Filled, Fits, Tied, At, Meets, RunForever, StmtsAt, StmtsLen, Are, ApplyPrim, Arity, BinaryOn;
    hide CallClosureValue, CallNamed, Callable, Eval, EvalAll, EvalTest, ExecAll, ExprAt;
    hide ExprLen, ExprsAt, ExprsLen, ForAt, Is, Lookup, LowerDo, RunRepeat, RunUntil;
    n, clo' := SimForever(I, c, base, body, pc, floor, st, clo, fuel);
  }

  lemma {:induction false} ForeverEval(p: Prog, fuel: nat, c: Ctx, body: seq<Stmt>, st: St)
    ensures StmtGoal(RunForever(p, fuel, c, body, st))
            == match ExecAll(p, fuel, c, body, st)
               case Done(None, s) =>
                 if fuel == 0 then OutOfFuel else StmtGoal(RunForever(p, Spent(fuel), c, body, Turn(c, s)))
               case o => StmtGoal(o)
  {
    hide ExecAll, Turn;
  }

  lemma {:induction false} SimForever(I: Image, c: Ctx, base: State, body: seq<Stmt>, pc: nat, floor: seq<Value>,
                                      st: St, clo: seq<Clo<nat>>, fuel: nat)
    returns (n: nat, clo': seq<Clo<nat>>)
    requires Ready(I, c, base) && Tied(I, clo, st.closures)
    requires StmtsAt(I.G(c), I.slots, body, pc) && Are(I.slots, pc + StmtsLen(body), [Yield, Jump(pc)])
    ensures Meets(I, base, At(base, pc, floor, st, clo), floor, pc + StmtsLen(body) + 2, n, clo', fuel,
                  StmtGoal(RunForever(I.p, fuel, c, body, st)))
    decreases fuel, StmtsLen(body), |body| + 5
  {
    hide Filled, Fits, Tied, At, Meets, On, ExecAll, RunForever, StmtsAt, StmtsLen, Run, Step, Are, Turn;
    var s := At(base, pc, floor, st, clo);
    var q := pc + StmtsLen(body);
    ForeverEval(I.p, fuel, c, body, st);
    Start(I, base, pc, floor, st, clo);
    n, clo' := NextStmts(I, c, base, s, 0, body, pc, floor, st, clo, fuel, floor, q + 2);
    var o := ExecAll(I.p, fuel, c, body, st);
    if o.Done? && o.v.None? {
      BackTo(I, s, n, base, c, q, [Yield, Jump(pc)], 0, floor, o.st, clo');
      if fuel == 0 {
        NoFuel(I, base, s, floor, q + 2, clo');
        n := 0;
      } else {
        var st1, clo1, k := Turn(c, o.st), clo', n + 2;
        TurnClosures(c, o.st);
        n, clo' := SimForever(I, c, base, body, pc, floor, st1, clo1, fuel - 1);
        OnMeets(I, s, k, base, pc, floor, st1, clo1, base, floor, q + 2, n, clo', fuel, fuel - 1,
                StmtGoal(RunForever(I.p, fuel - 1, c, body, st1)));
        n := k + n;
      }
    }
  }

  lemma {:induction false} SimUntilLoop(I: Image, c: Ctx, base: State, cond: Expr, body: seq<Stmt>, pc: nat,
                                        floor: seq<Value>, st: St, clo: seq<Clo<nat>>, fuel: nat)
    returns (n: nat, clo': seq<Clo<nat>>)
    requires Ready(I, c, base) && Tied(I, clo, st.closures) && StmtAt(I.G(c), I.slots, UntilLoop(cond, body), pc)
    ensures Meets(I, base, At(base, pc, floor, st, clo), floor, pc + StmtLen(UntilLoop(cond, body)), n, clo', fuel,
                  StmtGoal(Exec1(I.p, fuel, c, UntilLoop(cond, body), st)))
    decreases fuel, StmtLen(UntilLoop(cond, body)), 0
  {
    hide Filled, Fits, Tied, At, Meets, RunUntil, StmtsAt, StmtsLen, Are, ExprAt, ExprLen, Is, ApplyPrim, Arity;
    hide BinaryOn, CallClosureValue, CallNamed, Callable, Eval, EvalAll, EvalTest, ExecAll;
    hide ExprsAt, ExprsLen, ForAt, Lookup, LowerDo, RunForever, RunRepeat;
    n, clo' := SimUntil(I, c, base, cond, body, pc, floor, st, clo, fuel, pc + ExprLen(cond) + StmtsLen(body) + 3);
  }

  lemma {:induction false} UntilEval(p: Prog, fuel: nat, c: Ctx, cond: Expr, body: seq<Stmt>, st: St)
    ensures StmtGoal(RunUntil(p, fuel, c, cond, body, st))
            == match EvalTest(p, fuel, c, cond, st)
               case Done(true, s) => Done(Leaves([]), s)
               case Done(false, s) => (
                 match ExecAll(p, fuel, c, body, s)
                 case Done(None, s') =>
                   if fuel == 0 then OutOfFuel else StmtGoal(RunUntil(p, Spent(fuel), c, cond, body, Turn(c, s')))
                 case o => StmtGoal(o))
               case b => BoolGoal(b)
  {
    hide ExecAll, Turn, EvalTest;
  }

  lemma {:induction false} SimUntil(I: Image, c: Ctx, base: State, cond: Expr, body: seq<Stmt>, pc: nat,
                                    floor: seq<Value>, st: St, clo: seq<Clo<nat>>, fuel: nat, end: nat)
    returns (n: nat, clo': seq<Clo<nat>>)
    requires Ready(I, c, base) && Tied(I, clo, st.closures) && ExprAt(I.G(c), I.slots, cond, pc)
    requires var a := pc + ExprLen(cond);
             var b := a + 1 + StmtsLen(body);
             Is(I.slots, a, ConditionalJump(end, true)) && StmtsAt(I.G(c), I.slots, body, a + 1)
               && Are(I.slots, b, [Yield, Jump(pc)]) && end == b + 2
    ensures Meets(I, base, At(base, pc, floor, st, clo), floor, end, n, clo', fuel,
                  StmtGoal(RunUntil(I.p, fuel, c, cond, body, st)))
    decreases fuel, ExprLen(cond) + StmtsLen(body), |body| + 5
  {
    hide Filled, Fits, Tied, At, Meets, On, ExecAll, RunUntil, StmtsAt, StmtsLen, Run, Step, Are, Turn, EvalTest;
    hide ExprAt, ExprLen, Is;
    var s := At(base, pc, floor, st, clo);
    var a := pc + ExprLen(cond);
    var b := a + 1 + StmtsLen(body);
    UntilEval(I.p, fuel, c, cond, body, st);
    n, clo' := SimBranch(I, c, base, cond, b + 2, true, pc, floor, st, clo, fuel, b + 2);
    var t := EvalTest(I.p, fuel, c, cond, st);
    if t.Done? && t.v {
      assert floor + [] == floor;
      OnLands(I, s, n, base, b + 2, floor, [], t.st, clo', fuel);
    } else if t.Done? {
      n, clo' := NextStmts(I, c, base, s, n, body, a + 1, floor, t.st, clo', fuel, floor, b + 2);
      var o := ExecAll(I.p, fuel, c, body, t.st);
      if o.Done? && o.v.None? {
        BackTo(I, s, n, base, c, b, [Yield, Jump(pc)], 0, floor, o.st, clo');
        if fuel == 0 {
          NoFuel(I, base, s, floor, b + 2, clo');
          n := 0;
        } else {
          var st1, clo1, k := Turn(c, o.st), clo', n + 2;
          TurnClosures(c, o.st);
          n, clo' := SimUntil(I, c, base, cond, body, pc, floor, st1, clo1, fuel - 1, end);
          OnMeets(I, s, k, base, pc, floor, st1, clo1, base, floor, b + 2, n, clo', fuel, fuel - 1,
                  StmtGoal(RunUntil(I.p, fuel - 1, c, cond, body, st1)));
          n := k + n;
        }
      }
    }
  }

  lemma {:induction false} RepeatStmtEval(p: Prog, fuel: nat, c: Ctx, times: Expr, body: seq<Stmt>, st: St)
    ensures StmtGoal(Exec1(p, fuel, c, Repeat(times, body), st))
            == match Eval(p, fuel, c, times, st)
               case Done(v, s) => StmtGoal(RunRepeat(p, fuel, c, v, body, s))
               case o => OneGoal(o)
  {
    hide Eval, RunRepeat, ApplyPrim, BinaryOn, CallClosureValue, CallNamed, EvalAll, EvalTest, ExecAll;
    hide Lookup, LowerDo, RunForever, RunUntil, StmtLen;
  }

  lemma {:induction false} SimRepeat(I: Image, c: Ctx, base: State, times: Expr, body: seq<Stmt>, pc: nat,
                                     floor: seq<Value>, st: St, clo: seq<Clo<nat>>, fuel: nat)
    returns (n: nat, clo': seq<Clo<nat>>)
    requires Ready(I, c, base) && Tied(I, clo, st.closures) && StmtAt(I.G(c), I.slots, Repeat(times, body), pc)
    ensures Meets(I, base, At(base, pc, floor, st, clo), floor, pc + StmtLen(Repeat(times, body)), n, clo', fuel,
                  StmtGoal(Exec1(I.p, fuel, c, Repeat(times, body), st)))
    decreases fuel, StmtLen(Repeat(times, body)), 0
  {
    hide Filled, Fits, Tied, At, Meets, On, RunRepeat, StmtsAt, StmtsLen, Are, ExprAt, ExprLen, StmtAt, StmtLen, Exec1;
    hide Eval, Run, Step;
    RepeatParts(I.G(c), I.slots, times, body, pc);
    RepeatStmtEval(I.p, fuel, c, times, body, st);
    var s := At(base, pc, floor, st, clo);
    var a := pc + ExprLen(times);
    var end := a + 9 + StmtsLen(body);
    Start(I, base, pc, floor, st, clo);
    n, clo' := NextExpr(I, c, base, s, 0, times, pc, floor, st, clo, fuel, floor, end);
    var o := Eval(I.p, fuel, c, times, st);
    if o.Done? {
      var clo1, k := clo', n;
      n, clo' := SimRepeatLoop(I, c, base, a, a + 4 + StmtsLen(body), floor, o.v, body, o.st, clo1, fuel);
      OnMeets(I, s, k, base, a, floor + [o.v], o.st, clo1, base, floor, end, n, clo', fuel, fuel,
              StmtGoal(RunRepeat(I.p, fuel, c, o.v, body, o.st)));
      n := k + n;
    }
  }

  /** Behind the body: count down, and go round again. */
  function RepeatRest(p: Prog, fuel: nat, c: Ctx, v: Value, body: seq<Stmt>, st: St): Out<Goal> {
    match BinaryOn(p.w, Sub, v, Num(1.0), st.heap.lists)
    case Err(e) => Raised(e, st)
    case Ok(less) =>
      if fuel == 0 then OutOfFuel
      else StmtGoal(RunRepeat(p, fuel - 1, c, less.0, body, Turn(c, st.(heap := st.heap.(lists := less.1)))))
  }

  lemma {:induction false} RepeatEval(p: Prog, fuel: nat, c: Ctx, v: Value, body: seq<Stmt>, st: St)
    ensures StmtGoal(RunRepeat(p, fuel, c, v, body, st))
            == match Relates(p.w, st.heap.lists, Greater, v, Num(0.0))
               case Err(e) => Raised(e, st)
               case Ok(false) => Done(Leaves([]), st)
               case Ok(true) => (
                 match ExecAll(p, fuel, c, body, st)
                 case Done(None, s) => RepeatRest(p, fuel, c, v, body, s)
                 case o => StmtGoal(o))
  {
    hide ExecAll, Turn, Relates, BinaryOn;
  }

  lemma {:induction false} SimRepeatLoop(I: Image, c: Ctx, base: State, a: nat, b: nat, floor: seq<Value>, v: Value,
                                         body: seq<Stmt>, st: St, clo: seq<Clo<nat>>, fuel: nat)
    returns (n: nat, clo': seq<Clo<nat>>)
    requires Ready(I, c, base) && Tied(I, clo, st.closures) && StmtsAt(I.G(c), I.slots, body, a + 4)
    requires b == a + 4 + StmtsLen(body) && Are(I.slots, a, RepeatHead(b)) && Are(I.slots, b, RepeatTail(a))
    ensures Meets(I, base, At(base, a, floor + [v], st, clo), floor, b + 5, n, clo', fuel,
                  StmtGoal(RunRepeat(I.p, fuel, c, v, body, st)))
    decreases fuel, StmtsLen(body), |body| + 5
  {
    hide Filled, Fits, Tied, At, Meets, On, ExecAll, RunRepeat, StmtsAt, StmtsLen, Run, Step, Are, Turn, Relates;
    hide BinaryOn;
    var s := At(base, a, floor + [v], st, clo);
    RepeatEval(I.p, fuel, c, v, body, st);
    n := RepeatTest(I, c, base, a, b, floor, v, st, clo, fuel);
    clo' := clo;
    var t := Relates(I.p.w, st.heap.lists, Greater, v, Num(0.0));
    if t.Err? {
      Escape(I, base, base, s, floor, floor, b + 5, 0, n, clo, fuel, Raised(t.error, st));
    } else if !t.value {
      assert floor + [] == floor;
      OnLands(I, s, n, base, b + 5, floor, [], st, clo, fuel);
    } else {
      n, clo' := NextStmts(I, c, base, s, n, body, a + 4, floor + [v], st, clo, fuel, floor, b + 5);
      var o := ExecAll(I.p, fuel, c, body, st);
      if o.Done? && o.v.None? {
        n, clo' := SimRepeatAgain(I, c, base, s, n, a, b, floor, v, body, o.st, clo', fuel);
      }
    }
  }

  lemma {:induction false} SimRepeatAgain(I: Image, c: Ctx, base: State, s: State, m: nat, a: nat, b: nat,
                                          floor: seq<Value>, v: Value, body: seq<Stmt>, st: St, clo: seq<Clo<nat>>,
                                          fuel: nat)
    returns (n: nat, clo': seq<Clo<nat>>)
    requires Ready(I, c, base) && Tied(I, clo, st.closures) && StmtsAt(I.G(c), I.slots, body, a + 4)
    requires b == a + 4 + StmtsLen(body) && Are(I.slots, a, RepeatHead(b)) && Are(I.slots, b, RepeatTail(a))
    requires On(I, s, m, base, b, floor + [v], st, clo)
    ensures Meets(I, base, s, floor, b + 5, n, clo', fuel, RepeatRest(I.p, fuel, c, v, body, st))
    decreases fuel, StmtsLen(body), |body| + 4
  {
    hide Filled, Fits, Tied, At, Meets, On, RunRepeat, StmtsAt, StmtsLen, Run, Step, Are, Turn, BinaryOn;
    n := RepeatNext(I, c, base, a, b, floor, v, st, clo, fuel);
    clo' := clo;
    var less := BinaryOn(I.p.w, Sub, v, Num(1.0), st.heap.lists);
    if less.Err? {
      OnMeets(I, s, m, base, b, floor + [v], st, clo, base, floor, 0, n, clo, fuel, fuel, Raised(less.error, st));
      n := m + n;
      Escape(I, base, base, s, floor, floor, b + 5, 0, n, clo, fuel, Raised(less.error, st));
    } else if fuel == 0 {
      NoFuel(I, base, s, floor, b + 5, clo);
      n := 0;
    } else {
      var st0 := st.(heap := st.heap.(lists := less.value.1));
      var v1, st1 := less.value.0, Turn(c, st0);
      TurnClosures(c, st0);
      OnTwo(I, s, m, base, b, floor + [v], st, clo, n, base, a, floor + [v1], st1, clo);
      var k := m + n;
      n, clo' := SimRepeatLoop(I, c, base, a, b, floor, v1, body, st1, clo, fuel - 1);
      OnMeets(I, s, k, base, a, floor + [v1], st1, clo, base, floor, b + 5, n, clo', fuel, fuel - 1,
              StmtGoal(RunRepeat(I.p, fuel - 1, c, v1, body, st1)));
      n := k + n;
    }
  }

  // ----- counting loops -----

  function NumGoal(o: Out<real>): Out<Goal> {
    match o case Done(x, s) => Done(Leaves([Num(x)]), s) case Raised(e, s) => Raised(e, s) case OutOfFuel => OutOfFuel
  }

  lemma {:induction false} NumEval(p: Prog, fuel: nat, c: Ctx, e: Expr, st: St)
    ensures NumGoal(EvalNum(p, fuel, c, e, st))
            == match Eval(p, fuel, c, e, st) case Done(v, s) => NumGoal(Lift(AsNum(p.w, v), s)) case o => OneGoal(o)
  {
    hide Eval, AsNum;
  }

  lemma ToNumMeets(I: Image, base: State, pc: nat, floor: seq<Value>, v: Value, st: St, clo: seq<Clo<nat>>, fuel: nat)
      returns (n: nat)
    requires base.calls != [] && Filled(I) && Tied(I, clo, st.closures) && Is(I.slots, pc, ToNum)
    ensures Meets(I, base, At(base, pc, floor + [v], st, clo), floor, pc + 1, n, clo, fuel,
                  NumGoal(Lift(AsNum(I.p.w, v), st)))
  {
    hide Filled, Tied, At, Meets, Is, BinaryOn, UnaryOn, Combine, Relates, OnList, AsNum;
    n := OpMeets(I, base, pc, floor, ToNum, [v], st, clo, fuel);
  }

  /** An operand that must be a number. */
  lemma {:induction false} NextNum(I: Image, c: Ctx, base: State, s: State, a: nat, e: Expr, pc: nat,
                                   values: seq<Value>, st: St, clo: seq<Clo<nat>>, fuel: nat, floor: seq<Value>,
                                   next: nat) returns (n: nat, clo': seq<Clo<nat>>)
    requires Ready(I, c, base) && Tied(I, clo, st.closures) && ExprAt(I.G(c), I.slots, e, pc)
             && Is(I.slots, pc + ExprLen(e), ToNum)
    requires On(I, s, a, base, pc, values, st, clo) && floor <= values
    ensures match EvalNum(I.p, fuel, c, e, st)
            case Done(x, st') =>
              On(I, s, n, base, pc + ExprLen(e) + 1, values + [Num(x)], st', clo') && Tied(I, clo', st'.closures)
            case o => Meets(I, base, s, floor, next, n, clo', fuel, NumGoal(o))
    decreases fuel, ExprLen(e), 4
  {
    hide Filled, Fits, Tied, At, Meets, On, Eval, EvalNum, ExprAt, ExprLen, Is, AsNum, Run, Step;
    NumEval(I.p, fuel, c, e, st);
    var q := pc + ExprLen(e);
    n, clo' := NextExpr(I, c, base, s, a, e, pc, values, st, clo, fuel, floor, next);
    var o := Eval(I.p, fuel, c, e, st);
    if o.Done? {
      var g := NumGoal(Lift(AsNum(I.p.w, o.v), o.st));
      var m := ToNumMeets(I, base, q, values, o.v, o.st, clo', fuel);
      OnMeets(I, s, n, base, q, values + [o.v], o.st, clo', base, values, q + 1, m, clo', fuel, fuel, g);
      n := n + m;
      if g.Done? {
        MeetsOn(I, base, s, values, q + 1, n, clo', fuel, g.v.vs, g.st);
      } else {
        Escape(I, base, base, s, floor, values, next, q + 1, n, clo', fuel, g);
      }
    }
  }

  lemma {:induction false} ForEval(p: Prog, fuel: nat, c: Ctx, v: Var, start: Expr, stop: Expr, body: seq<Stmt>, st: St)
    ensures StmtGoal(Exec1(p, fuel, c, ForLoop(v, start, stop, body), st))
            == match EvalNum(p, fuel, c, start, DeclareIn(st, v.name))
               case Done(x, s) => (
                 match EvalNum(p, fuel, c, stop, s)
                 case Done(y, s') => StmtGoal(RunFor(p, fuel, c, v.trans, x, y, 0, body, s'))
                 case o => NumGoal(o))
               case o => NumGoal(o)
  {
    hide EvalNum, RunFor, DeclareIn;
  }

  lemma ForParts(I: Image, c: Ctx, v: Var, start: Expr, stop: Expr, body: seq<Stmt>, pc: nat)
    requires StmtAt(I.G(c), I.slots, ForLoop(v, start, stop, body), pc)
    ensures ForAt(I.G(c), I.slots, v, start, stop, body, pc)
    ensures StmtLen(ForLoop(v, start, stop, body)) == ExprLen(start) + ExprLen(stop) + StmtsLen(body) + 33
  {
    hide Are, ExprAt, StmtsAt, Is, ForAt;
  }

  lemma DeclareClosures(st: St, name: Str)
    ensures DeclareIn(st, name).closures == st.closures
  {
  }

  lemma {:induction false} SimForLoop(I: Image, c: Ctx, base: State, t: Stmt, pc: nat, floor: seq<Value>, st: St,
                                      clo: seq<Clo<nat>>, fuel: nat)
    returns (n: nat, clo': seq<Clo<nat>>)
    requires Ready(I, c, base) && Tied(I, clo, st.closures) && t.ForLoop? && StmtAt(I.G(c), I.slots, t, pc)
    ensures Meets(I, base, At(base, pc, floor, st, clo), floor, pc + StmtLen(t), n, clo', fuel,
                  StmtGoal(Exec1(I.p, fuel, c, t, st)))
    decreases fuel, StmtLen(t), 0
  {
    hide Filled, Fits, Tied, At, Meets, On, RunFor, StmtsAt, StmtsLen, Are, ExprAt, ExprLen, StmtAt, StmtLen, Exec1;
    hide EvalNum, Run, Step, Is, DeclareIn, Distance, StepOf, ExecAll;
    assert t == ForLoop(t.v, t.start, t.stop, t.body);
    ForParts(I, c, t.v, t.start, t.stop, t.body, pc);
    ForEval(I.p, fuel, c, t.v, t.start, t.stop, t.body, st);
    var s := At(base, pc, floor, st, clo);
    var a := pc + 1 + ExprLen(t.start);
    var b := a + 1 + ExprLen(t.stop);
    var end := b + 31 + StmtsLen(t.body);
    var st1 := DeclareIn(st, t.v.name);
    DeclareGoes(I, base, pc, floor, t.v.name, st, clo);
    DeclareClosures(st, t.v.name);
    RunOn(I, s, 1, base, pc + 1, floor, st1, clo);
    n, clo' := NextNum(I, c, base, s, 1, t.start, pc + 1, floor, st1, clo, fuel, floor, end);
    var x := EvalNum(I.p, fuel, c, t.start, st1);
    if x.Done? {
      n, clo' := NextNum(I, c, base, s, n, t.stop, a + 1, floor + [Num(x.v)], x.st, clo', fuel, floor, end);
      var y := EvalNum(I.p, fuel, c, t.stop, x.st);
      if y.Done? {
        assert floor + [Num(x.v)] + [Num(y.v)] == floor + [Num(x.v), Num(y.v)];
        var m := ForStart(I, c, base, b + 1, floor, x.v, y.v, y.st, clo');
        var w := floor + [Num(StepOf(x.v, y.v)), Num(x.v), Num(Distance(x.v, y.v))];
        OnTwo(I, s, n, base, b + 1, floor + [Num(x.v), Num(y.v)], y.st, clo', m, base, b + 13, w, y.st, clo');
        var clo1, k := clo', n + m;
        ForBegins(floor, x.v, y.v);
        n, clo' := SimFor(I, c, base, b + 13, b + 19 + StmtsLen(t.body), t.v.trans, floor, x.v, y.v, 0, t.body, y.st,
                          clo1, fuel);
        OnMeets(I, s, k, base, b + 13, w, y.st, clo1, base, floor, end, n, clo', fuel, fuel,
                StmtGoal(RunFor(I.p, fuel, c, t.v.trans, x.v, y.v, 0, t.body, y.st)));
        n := k + n;
      }
    }
  }

  /** The stack of a counting loop in round `k`. */
  function ForStack(floor: seq<Value>, x: real, y: real, k: nat): seq<Value> {
    floor + [Num(StepOf(x, y)), Num(ForValue(x, y, k)), Num(Distance(x, y) - k as real)]
  }

  lemma ForBegins(floor: seq<Value>, x: real, y: real)
    ensures ForStack(floor, x, y, 0) == floor + [Num(StepOf(x, y)), Num(x), Num(Distance(x, y))]
  {
  }

  lemma ForAdvances(x: real, y: real, k: nat)
    ensures ForValue(x, y, k) + StepOf(x, y) == ForValue(x, y, k + 1)
    ensures Distance(x, y) - k as real - 1.0 == Distance(x, y) - (k + 1) as real
  {
  }

  /** Behind the body: the next round. */
  function ForRest(p: Prog, fuel: nat, c: Ctx, name: Str, x: real, y: real, k: nat, body: seq<Stmt>,
                   st: St): Out<Goal> {
    if fuel == 0 then OutOfFuel else StmtGoal(RunFor(p, fuel - 1, c, name, x, y, k + 1, body, Turn(c, st)))
  }

  lemma {:induction false} ForRoundEval(p: Prog, fuel: nat, c: Ctx, name: Str, x: real, y: real, k: nat,
                                        body: seq<Stmt>, st: St)
    ensures StmtGoal(RunFor(p, fuel, c, name, x, y, k, body, st))
            == if k as real > Distance(x, y) then Done(Leaves([]), st)
               else match SetVariable(p, st, name, Num(ForValue(x, y, k)))
                    case Done(_, s) => (
                      match ExecAll(p, fuel, c, body, s)
                      case Done(None, s') => ForRest(p, fuel, c, name, x, y, k, body, s')
                      case o => StmtGoal(o))
                    case u => StmtGoal(u)
    ensures match SetVariable(p, st, name, Num(ForValue(x, y, k))) case Done(w, _) => w.None? case _ => true
  {
    hide ExecAll, Turn, Distance, ForValue;
  }

  lemma {:induction false} SimFor(I: Image, c: Ctx, base: State, top: nat, d: nat, trans: Str, floor: seq<Value>,
                                  x: real, y: real, k: nat, body: seq<Stmt>, st: St, clo: seq<Clo<nat>>, fuel: nat)
    returns (n: nat, clo': seq<Clo<nat>>)
    requires Ready(I, c, base) && Tied(I, clo, st.closures) && StmtsAt(I.G(c), I.slots, body, top + 6)
    requires d == top + 6 + StmtsLen(body) && Are(I.slots, top, ForHead(d, trans)) && Are(I.slots, d, ForTail(top))
    ensures Meets(I, base, At(base, top, ForStack(floor, x, y, k), st, clo), floor, d + 12, n, clo', fuel,
                  StmtGoal(RunFor(I.p, fuel, c, trans, x, y, k, body, st)))
    decreases fuel, StmtsLen(body), |body| + 6
  {
    hide Filled, Fits, Tied, At, Meets, On, ExecAll, RunFor, StmtsAt, StmtsLen, Run, Step, Are, Is, Turn, SetVariable;
    hide ForValue, Distance, StepOf;
    var cur, rem := Num(ForValue(x, y, k)), Distance(x, y) - k as real;
    var w := ForStack(floor, x, y, k);
    var s := At(base, top, w, st, clo);
    ForRoundEval(I.p, fuel, c, trans, x, y, k, body, st);
    n := ForTest(I, c, base, top, d, trans, floor, Num(StepOf(x, y)), cur, rem, st, clo);
    clo' := clo;
    if rem < 0.0 {
      assert floor + [] == floor;
      OnLands(I, s, n, base, d + 12, floor, [], st, clo, fuel);
    } else {
      AreIs(I.slots, top, ForHead(d, trans), 5);
      n := NextAssign(I, base, s, n, top + 5, trans, w, cur, st, clo, fuel, floor, d + 12);
      var u := SetVariable(I.p, st, trans, cur);
      if u.Done? {
        n, clo' := NextStmts(I, c, base, s, n, body, top + 6, w, u.st, clo, fuel, floor, d + 12);
        var o := ExecAll(I.p, fuel, c, body, u.st);
        if o.Done? && o.v.None? {
          n, clo' := SimForAgain(I, c, base, s, n, top, d, trans, floor, x, y, k, body, o.st, clo', fuel);
        }
      }
    }
  }

  lemma {:induction false} SimForAgain(I: Image, c: Ctx, base: State, s: State, m: nat, top: nat, d: nat, trans: Str,
                                       floor: seq<Value>, x: real, y: real, k: nat, body: seq<Stmt>, st: St,
                                       clo: seq<Clo<nat>>, fuel: nat) returns (n: nat, clo': seq<Clo<nat>>)
    requires Ready(I, c, base) && Tied(I, clo, st.closures) && StmtsAt(I.G(c), I.slots, body, top + 6)
    requires d == top + 6 + StmtsLen(body) && Are(I.slots, top, ForHead(d, trans)) && Are(I.slots, d, ForTail(top))
    requires On(I, s, m, base, d, ForStack(floor, x, y, k), st, clo)
    ensures Meets(I, base, s, floor, d + 12, n, clo', fuel, ForRest(I.p, fuel, c, trans, x, y, k, body, st))
    decreases fuel, StmtsLen(body), |body| + 5
  {
    hide Filled, Fits, Tied, At, Meets, On, ExecAll, RunFor, StmtsAt, StmtsLen, Run, Step, Are, Turn, ForValue;
    hide Distance, StepOf;
    var end := d + 12;
    if fuel == 0 {
      NoFuel(I, base, s, floor, end, clo);
      n, clo' := 0, clo;
    } else {
      var w, w1, st1 := ForStack(floor, x, y, k), ForStack(floor, x, y, k + 1), Turn(c, st);
      TurnClosures(c, st);
      ForAdvances(x, y, k);
      n := ForNext(I, c, base, top, d, floor, StepOf(x, y), ForValue(x, y, k), Distance(x, y) - k as real, st, clo);
      OnTwo(I, s, m, base, d, w, st, clo, n, base, top, w1, st1, clo);
      var j := m + n;
      n, clo' := SimFor(I, c, base, top, d, trans, floor, x, y, k + 1, body, st1, clo, fuel - 1);
      OnMeets(I, s, j, base, top, w1, st1, clo, base, floor, end, n, clo', fuel, fuel - 1,
              StmtGoal(RunFor(I.p, fuel - 1, c, trans, x, y, k + 1, body, st1)));
      n := j + n;
    }
  }

  /** An assignment run where the code before it ended. */
  lemma NextAssign(I: Image, base: State, s: State, a: nat, pc: nat, name: Str, values: seq<Value>, v: Value, st: St,
                   clo: seq<Clo<nat>>, fuel: nat, floor: seq<Value>, next: nat)
    returns (n: nat)
    requires Filled(I) && Tied(I, clo, st.closures) && Is(I.slots, pc, Assign(name))
             && On(I, s, a, base, pc, values + [v], st, clo) && floor <= values
    ensures match SetVariable(I.p, st, name, v)
            case Done(w, st') => w.None? && On(I, s, n, base, pc + 1, values, st', clo) && Tied(I, clo, st'.closures)
            case o => Meets(I, base, s, floor, next, n, clo, fuel, StmtGoal(o))
  {
    hide Filled, Tied, At, Meets, Run, Step, Is, SetCell, Lookup;
    var o := SetVariable(I.p, st, name, v);
    var m := AssignMeets(I, base, pc, values, name, v, st, clo, fuel);
    OnMeets(I, s, a, base, pc, values + [v], st, clo, base, values, pc + 1, m, clo, fuel, fuel, StmtGoal(o));
    n := a + m;
    if o.Done? {
      MeetsOn(I, base, s, values, pc + 1, n, clo, fuel, [], o.st);
      assert values + [] == values;
    } else {
      Escape(I, base, base, s, floor, values, next, pc + 1, n, clo, fuel, StmtGoal(o));
    }
  }

  // ----- loops over lists -----

  lemma {:induction false} ForeachStmtEval(p: Prog, fuel: nat, c: Ctx, v: Var, items: Expr, body: seq<Stmt>, st: St)
    ensures StmtGoal(Exec1(p, fuel, c, ForeachLoop(v, items, body), st))
            == match Eval(p, fuel, c, items, DeclareIn(st, v.name))
               case Done(l, s) => (
                 match CopyList(p, l, s)
                 case Done(w, s') => StmtGoal(RunForeach(p, fuel, c, v.trans, WorkId(w), body, s'))
                 case o => OneGoal(o))
               case o => OneGoal(o)
  {
    hide Eval, RunForeach, DeclareIn, CopyList, WorkId;
  }

  lemma {:induction false} SimForeachLoop(I: Image, c: Ctx, base: State, v: Var, items: Expr, body: seq<Stmt>, pc: nat,
                                          floor: seq<Value>, st: St, clo: seq<Clo<nat>>, fuel: nat)
    returns (n: nat, clo': seq<Clo<nat>>)
    requires Ready(I, c, base) && Tied(I, clo, st.closures) && StmtAt(I.G(c), I.slots, ForeachLoop(v, items, body), pc)
    ensures Meets(I, base, At(base, pc, floor, st, clo), floor, pc + StmtLen(ForeachLoop(v, items, body)), n, clo',
                  fuel,
                  StmtGoal(Exec1(I.p, fuel, c, ForeachLoop(v, items, body), st)))
    decreases fuel, StmtLen(ForeachLoop(v, items, body)), 0
  {
    hide Filled, Fits, Tied, At, Meets, On, RunForeach, StmtsAt, StmtsLen, Are, ExprAt, ExprLen, StmtAt, StmtLen;
    hide Exec1, Eval, Run, Step, Is, DeclareIn, CopyList, WorkId;
    ForeachParts(I.G(c), I.slots, v, items, body, pc);
    ForeachStmtEval(I.p, fuel, c, v, items, body, st);
    var s := At(base, pc, floor, st, clo);
    var a := pc + 1 + ExprLen(items);
    var end := a + 7 + StmtsLen(body);
    var st1 := DeclareIn(st, v.name);
    DeclareGoes(I, base, pc, floor, v.name, st, clo);
    DeclareClosures(st, v.name);
    RunOn(I, s, 1, base, pc + 1, floor, st1, clo);
    n, clo' := NextExpr(I, c, base, s, 1, items, pc + 1, floor, st1, clo, fuel, floor, end);
    var l := Eval(I.p, fuel, c, items, st1);
    if l.Done? {
      n := NextCopy(I, base, s, n, a, floor, l.v, l.st, clo', fuel, floor, end);
      var w := CopyList(I.p, l.v, l.st);
      if w.Done? {
        var work, clo1, k := WorkId(w.v), clo', n;
        n, clo' := SimForeach(I, c, base, a + 1, a + 4 + StmtsLen(body), v.trans, floor, work, body, w.st, clo1, fuel);
        OnMeets(I, s, k, base, a + 1, floor + [List(work)], w.st, clo1, base, floor, end, n, clo', fuel, fuel,
                StmtGoal(RunForeach(I.p, fuel, c, v.trans, work, body, w.st)));
        n := k + n;
      }
    }
  }

  lemma {:induction false} ForeachEval(p: Prog, fuel: nat, c: Ctx, name: Str, work: nat, body: seq<Stmt>, st: St)
    ensures var items := Items(st.heap.lists, work);
            StmtGoal(RunForeach(p, fuel, c, name, work, body, st))
            == if items == [] then Done(Leaves([]), st)
               else match SetVariable(p, TakeFirst(st, work), name, FirstOf(items))
                    case Done(_, s) => (
                      match ExecAll(p, fuel, c, body, s)
                      case Done(None, s') =>
                        if fuel == 0 then OutOfFuel
                        else StmtGoal(RunForeach(p, Spent(fuel), c, name, work, body, Turn(c, s')))
                      case o => StmtGoal(o))
                    case u => StmtGoal(u)
  {
    hide ExecAll, Turn, Items, TakeFirst, Lookup, SetCell;
  }

  lemma {:induction false} SimForeach(I: Image, c: Ctx, base: State, top: nat, b: nat, trans: Str, floor: seq<Value>,
                                      work: nat, body: seq<Stmt>, st: St, clo: seq<Clo<nat>>, fuel: nat)
    returns (n: nat, clo': seq<Clo<nat>>)
    requires Ready(I, c, base) && Tied(I, clo, st.closures) && StmtsAt(I.G(c), I.slots, body, top + 3)
    requires b == top + 3 + StmtsLen(body) && Are(I.slots, top, ForeachHead(b, trans))
             && Are(I.slots, b, ForeachTail(top))
    ensures Meets(I, base, At(base, top, floor + [List(work)], st, clo), floor, b + 3, n, clo', fuel,
                  StmtGoal(RunForeach(I.p, fuel, c, trans, work, body, st)))
    decreases fuel, StmtsLen(body), |body| + 5
  {
    hide Filled, Fits, Tied, At, Meets, On, ExecAll, RunForeach, StmtsAt, StmtsLen, Run, Step, Are, Is, Turn;
    hide SetVariable, Items, TakeFirst;
    var end := b + 3;
    var w := floor + [List(work)];
    var s := At(base, top, w, st, clo);
    ForeachEval(I.p, fuel, c, trans, work, body, st);
    n := ForeachEnter(I, c, base, top, b, trans, floor, work, st, clo);
    clo' := clo;
    var items := Items(st.heap.lists, work);
    if items == [] {
      assert floor + [] == floor;
      OnLands(I, s, n, base, end, floor, [], st, clo, fuel);
    } else {
      var st1 := TakeFirst(st, work);
      TakeFirstClosures(st, work);
      AreIs(I.slots, top, ForeachHead(b, trans), 2);
      n := NextAssign(I, base, s, n, top + 2, trans, w, items[0], st1, clo, fuel, floor, end);
      var u := SetVariable(I.p, st1, trans, items[0]);
      if u.Done? {
        n, clo' := NextStmts(I, c, base, s, n, body, top + 3, w, u.st, clo, fuel, floor, end);
        var o := ExecAll(I.p, fuel, c, body, u.st);
        if o.Done? && o.v.None? {
          BackTo(I, s, n, base, c, b, ForeachTail(top), 0, w, o.st, clo');
          if fuel == 0 {
            NoFuel(I, base, s, floor, end, clo');
            n := 0;
          } else {
            var st2, clo1, k := Turn(c, o.st), clo', n + 2;
            TurnClosures(c, o.st);
            n, clo' := SimForeach(I, c, base, top, b, trans, floor, work, body, st2, clo1, fuel - 1);
            OnMeets(I, s, k, base, top, w, st2, clo1, base, floor, end, n, clo', fuel, fuel - 1,
                    StmtGoal(RunForeach(I.p, fuel - 1, c, trans, work, body, st2)));
            n := k + n;
          }
        }
      }
    }
  }
}
