/** Compiled code has one level at every instruction: an expression leaves one value more than it found, a
    statement leaves as many, on every path, and no instruction takes a value from below its activation. */
module CodeLevels {
  import opened Common
  import opened Bytecode
  import opened Machine
  import opened Tokens
  import opened Ast
  import opened Source
  import opened Codegen
  import opened Calls
  import opened Levels
  import opened RowLevels

  // ----- the levels of every construct -----

  function LitLevels(v: Lit, l: Level): seq<Level> {
    match v
    case ListLit(items) => Then(LitsLevels(items, l), Rise(l, [|items|, 1]))
    case _ => Rise(l, [0, 1])
  }

  function LitsLevels(vs: seq<Lit>, l: Level): seq<Level> {
    if vs == [] then [l] else Then(LitLevels(vs[0], l), LitsLevels(vs[1..], Up(l, 1)))
  }

  function ExprLevels(e: Expr, l: Level): seq<Level> {
    match e
    case Literal(v) => LitLevels(v, l)
    case Variable(_) => Rise(l, [0, 1])
    case Simple(_, args) => Then(ExprsLevels(args, l), Rise(l, [|args|, 1]))
    case ListOf(items) => Then(ExprsLevels(items, l), Rise(l, [|items|, 1]))
    case Reduce(_, src) =>
      if src.ListOf? then Then(ExprsLevels(src.items, l), Rise(l, [|src.items|, 1]))
      else if Written(src) then Then(LitsLevels(src.v.items, l), Rise(l, [|src.v.items|, 1]))
      else Then(ExprLevels(src, l), Rise(l, [1, 1]))
    case Conditional(cond, then_, else_) =>
      Then(ExprLevels(cond, l), Then(Rise(l, [1, 0]),
                                     Then(ExprLevels(then_, l), Then(Rise(l, [1, 0]), ExprLevels(else_, l)))))
    case Or(left, right) => ShortLevels(ExprLevels(left, l), ExprLevels(right, l), l)
    case And(left, right) => ShortLevels(ExprLevels(left, l), ExprLevels(right, l), l)
    case CallFn(_, args, upvars) => Then(Evenly(l, |upvars|), Then(ExprsLevels(args, l), Rise(l, [|args|, 1])))
    case CallValue(f, args) => Then(ExprLevels(f, l), Then(ExprsLevels(args, Up(l, 1)), Rise(l, [|args| + 1, 1])))
    case Lambda(_, _, _) => Rise(l, [0, 1])
    case Map(f, list) => Then(ExprLevels(f, l), Then(ExprLevels(list, Up(l, 1)), Rise(l, MAPS)))
    case Keep(f, list) => Then(ExprLevels(f, l), Then(ExprLevels(list, Up(l, 1)), Rise(l, KEEPS)))
    case FindFirst(f, list) => Then(ExprLevels(f, l), Then(ExprLevels(list, Up(l, 1)), Rise(l, FINDS)))
    case FoldWith(f, list) =>
      Then(ExprLevels(list, l), Then(Rise(l, [1, 1]), Then(ExprLevels(f, Up(l, 1)), Rise(l, FOLDS))))
  }

  function ExprsLevels(es: seq<Expr>, l: Level): seq<Level> {
    if es == [] then [l] else Then(ExprLevels(es[0], l), ExprsLevels(es[1..], Up(l, 1)))
  }

  function StmtLevels(s: Stmt, l: Level): seq<Level> {
    match s
    case SetVar(_, value) => Then(ExprLevels(value, l), Rise(l, [1, 0]))
    case ChangeVar(_, value) => Then(ExprLevels(value, l), Rise(l, [1, 0]))
    case DeclareLocals(names) => Evenly(l, |names|)
    case Do(_, args) => Then(ExprsLevels(args, l), Rise(l, [|args|, 0]))
    case ReturnValue(value) => Then(ExprLevels(value, l), Rise(l, [1, 0]))
    case Warp(body) => Then(Rise(l, [0, 0]), Then(StmtsLevels(body, l), Rise(l, [0, 0])))
    case InfLoop(body) => Then(StmtsLevels(body, l), Rise(l, [0, 0, 0]))
    case UntilLoop(cond, body) =>
      Then(ExprLevels(cond, l), Then(Rise(l, [1, 0]), Then(StmtsLevels(body, l), Rise(l, [0, 0, 0]))))
    case Repeat(times, body) => Then(ExprLevels(times, l), RepeatLevels(StmtsLevels(body, Up(l, 1)), l))
    case ForLoop(_, start, stop, body) =>
      Then(RangeLevels(ExprLevels(start, l), ExprLevels(stop, Up(l, 1)), l),
           RoundsLevels(StmtsLevels(body, Up(l, 3)), l))
    case ForeachLoop(_, items, body) =>
      Then(Rise(l, [0, 0]), Then(ExprLevels(items, l),
                                 Then(Rise(l, [1, 1]), ForeachLevels(StmtsLevels(body, Up(l, 1)), l))))
    case If(cond, then_) => Then(ExprLevels(cond, l), Then(Rise(l, [1, 0]), StmtsLevels(then_, l)))
    case IfElse(cond, then_, else_) =>
      Then(ExprLevels(cond, l), Then(Rise(l, [1, 0]),
                                     Then(StmtsLevels(then_, l), Then(Rise(l, [0, 0]), StmtsLevels(else_, l)))))
    case TryCatch(body, _, handler) => TryLevels(StmtsLevels(body, Marked(l)), StmtsLevels(handler, l), l)
    case RunFn(_, args, upvars) => Then(Evenly(l, |upvars|), Then(ExprsLevels(args, l), Rise(l, [|args|, 1, 0])))
    case RunValue(f, args) => Then(ExprLevels(f, l), Then(ExprsLevels(args, Up(l, 1)), Rise(l, [|args| + 1, 1, 0])))
  }

  function StmtsLevels(ss: seq<Stmt>, l: Level): seq<Level> {
    if ss == [] then [l] else Then(StmtLevels(ss[0], l), StmtsLevels(ss[1..], l))
  }

  /** A whole body starts on the ground. Nothing follows its last instruction, which returns. */
  function BodyLevels(upvars: seq<Str>, body: seq<Stmt>): seq<Level> {
    Then(Evenly(GROUND, |upvars|), Then(StmtsLevels(body, GROUND), Rise(GROUND, [0, 1])))
  }

  // ----- literals and declarations -----

  function LitPush(v: Lit): Instruction
    requires !v.ListLit?
  {
    match v case NumLit(bits) => PushNumber(bits) case TxtLit(text) => PushString(text) case BoolLit(b) => PushBool(b)
  }

  lemma PushEffect(v: Lit)
    requires !v.ListLit?
    ensures Effect(LitPush(v)) == Some((0, 1))
  {
  }

  lemma LitCases(code: seq<Slot>, v: Lit, pc: nat)
    requires LitAt(code, v, pc)
    ensures if v.ListLit? then LitsAt(code, v.items, pc)
            && Is(code, pc + LitsLen(v.items), Variadic(MakeList, Fixed(|v.items|)))
            else Is(code, pc, LitPush(v))
  {
    hide Is, LitsAt;
  }

  lemma {:induction false} LitSettles(fns: FnTable, code: seq<Slot>, v: Lit, pc: nat, l: Level)
    requires LitAt(code, v, pc) && Proper(l)
    ensures Settles(fns, code, LitLevels(v, l), pc, LitLen(v), l, Up(l, 1))
    decreases v
  {
    hide Settles, Proper, Is, LitsAt, LitAt, Effect, Then, Rise;
    LitCases(code, v, pc);
    if v.ListLit? {
      var n := |v.items|;
      LitsSettle(fns, code, v.items, pc, l);
      GatherEffect(MakeList, n);
      Takes(fns, code, pc + LitsLen(v.items), Variadic(MakeList, Fixed(n)), l, n, 1);
      Joins(fns, code, LitsLevels(v.items, l), Rise(l, [n, 1]), pc, LitsLen(v.items), 1, l, Up(l, n), Up(l, 1));
    } else {
      assert Up(l, 0) == l;
      PushEffect(v);
      Takes(fns, code, pc, LitPush(v), l, 0, 1);
    }
  }

  lemma {:induction false} LitsSettle(fns: FnTable, code: seq<Slot>, vs: seq<Lit>, pc: nat, l: Level)
    requires LitsAt(code, vs, pc) && Proper(l)
    ensures Settles(fns, code, LitsLevels(vs, l), pc, LitsLen(vs), l, Up(l, |vs|))
    decreases vs
  {
    hide Settles, Proper, LitAt, Then, Rise;
    if vs == [] {
      Nothing(fns, code, pc, l);
    } else {
      var a, b := LitLen(vs[0]), LitsLen(vs[1..]);
      LitSettles(fns, code, vs[0], pc, l);
      UpProper(l, 1);
      LitsSettle(fns, code, vs[1..], pc + a, Up(l, 1));
      assert Up(Up(l, 1), |vs[1..]|) == Up(l, |vs|);
      Joins(fns, code, LitLevels(vs[0], l), LitsLevels(vs[1..], Up(l, 1)), pc, a, b, l, Up(l, 1), Up(l, |vs|));
    }
  }

  lemma Nothing(fns: FnTable, code: seq<Slot>, pc: nat, l: Level)
    requires Proper(l)
    ensures Settles(fns, code, [l], pc, 0, l, l) && l == Up(l, 0)
  {
    hide Proper;
  }

  /** Declarations, which leave the level alone. */
  lemma DeclaresSettle(fns: FnTable, code: seq<Slot>, names: seq<Str>, pc: nat, l: Level)
    requires DeclaresAt(code, names, pc) && Proper(l)
    ensures Settles(fns, code, Evenly(l, |names|), pc, |names|, l, l)
  {
    hide Proper, Settles;
    var row := seq(|names|, i requires 0 <= i < |names| => DeclareLocal(names[i]));
    var heights := seq(|names| + 1, i => 0);
    assert Up(l, 0) == l;
    Closed(fns, code, pc, row, heights, l);
  }

  // ----- holes -----

  /** One position, whatever stands there. */
  lemma SlotSettles(fns: FnTable, code: seq<Slot>, pc: nat, from: Level, to: Level)
    requires pc < |code| && Proper(from) && Proper(to) && Flows(fns, code[pc], pc, from, Cells([from, to], pc))
    ensures Settles(fns, code, [from, to], pc, 1, from, to)
  {
    hide Flows, Proper, Cells;
    var ls := [from, to];
    forall q | pc <= q < pc + |ls| - 1 ensures Stays(fns, code, ls, pc, q, Cells(ls, pc)) {
      assert q == pc;
    }
  }

  predicate LambdaAt(code: seq<Slot>, pc: int) {
    0 <= pc < |code| && code[pc].ClosureHole?
  }

  lemma ClosureSettles(fns: FnTable, code: seq<Slot>, pc: nat, l: Level)
    requires LambdaAt(code, pc) && Proper(l)
    ensures Settles(fns, code, Rise(l, [0, 1]), pc, 1, l, Up(l, 1))
  {
    hide Proper, Settles, Cells, GoesOn, NulFree;
    UpProper(l, 1);
    assert Up(l, 0) == l;
    assert Rise(l, [0, 1]) == [l, Up(l, 1)];
    InCells([l, Up(l, 1)], pc, 1);
    SlotSettles(fns, code, pc, l, Up(l, 1));
  }

  lemma CallSettles(g: Scope, code: seq<Slot>, name: Str, n: nat, pc: nat, l: Level)
    requires Hole(code, pc, CallHole(name, g.ent)) && Callable(g, name, n) && Proper(l)
    ensures Settles(g.fns, code, Rise(l, [n, 1]), pc, 1, Up(l, n), Up(l, 1))
  {
    hide Proper, Settles, Cells, Resolve, NulFree;
    UpProper(l, 1);
    UpProper(l, n);
    SpareOf(l);
    var ls := [Up(l, n), Up(l, 1)];
    assert Rise(l, [n, 1]) == ls;
    InCells(ls, pc, 1);
    assert Shifted(Up(l, n), n, 1) == Up(l, 1);
    SlotSettles(g.fns, code, pc, Up(l, n), Up(l, 1));
  }

  // ----- expressions -----

  lemma LowerEffect(op: SimpleOp, n: nat)
    requires Arity(Lower(op)) == Some(n)
    ensures Effect(Lower(op)) == Some((n, 1))
  {
  }

  lemma NameEffect(name: Str, n: nat)
    ensures Effect(PushVariable(name)) == Some((0, 1)) && Effect(CallClosure(false, n)) == Some((n + 1, 1))
  {
  }

  /** Values computed one after the other, and then what takes them. */
  lemma {:induction false} ExprsSettle(g: Scope, code: seq<Slot>, es: seq<Expr>, pc: nat, l: Level)
    requires ExprsAt(g, code, es, pc) && Proper(l)
    ensures Settles(g.fns, code, ExprsLevels(es, l), pc, ExprsLen(es), l, Up(l, |es|))
    decreases ExprsLen(es), |es| + 3
  {
    hide Settles, Proper, ExprAt, Then, Rise, ExprLen, ExprLevels;
    if es == [] {
      Nothing(g.fns, code, pc, l);
    } else {
      var a, b := ExprLen(es[0]), ExprsLen(es[1..]);
      ExprSettles(g, code, es[0], pc, l);
      UpProper(l, 1);
      ExprsSettle(g, code, es[1..], pc + a, Up(l, 1));
      assert Up(Up(l, 1), |es[1..]|) == Up(l, |es|);
      Joins(g.fns, code, ExprLevels(es[0], l), ExprsLevels(es[1..], Up(l, 1)), pc, a, b, l, Up(l, 1), Up(l, |es|));
    }
  }

  /** Every expression nets one value. */
  lemma {:induction false} ExprSettles(g: Scope, code: seq<Slot>, e: Expr, pc: nat, l: Level)
    requires ExprAt(g, code, e, pc) && Proper(l)
    ensures Settles(g.fns, code, ExprLevels(e, l), pc, ExprLen(e), l, Up(l, 1))
    decreases ExprLen(e), 2
  {
    hide ExprAt, ExprLen, Settles, Proper, ExprLevels;
    if e.Map? || e.Keep? || e.FindFirst? {
      HigherSettles(g, code, e, pc, l);
    } else if e.FoldWith? {
      FoldSettles(g, code, e, pc, l);
    } else if e.Or? || e.And? {
      EitherSettles(g, code, e, pc, l);
    } else if e.Reduce? {
      ReduceSettles(g, code, e, pc, l);
    } else if e.Conditional? {
      ChoiceSettles(g, code, e, pc, l);
    } else if e.CallFn? {
      NamedSettles(g, code, e, pc, l);
    } else if e.CallValue? {
      ApplySettles(g, code, e, pc, l);
    } else if e.Simple? {
      SimpleSettles(g, code, e, pc, l);
    } else {
      BasicSettles(g, code, e, pc, l);
    }
  }

  lemma {:induction false} BasicAt(g: Scope, code: seq<Slot>, e: Expr, pc: nat, l: Level)
    requires ExprAt(g, code, e, pc) && (e.Literal? || e.Variable? || e.Lambda? || e.ListOf?)
    ensures || (e.Literal? && LitAt(code, e.v, pc)
                && ExprLen(e) == LitLen(e.v) && ExprLevels(e, l) == LitLevels(e.v, l))
            || (e.Variable? && Is(code, pc, PushVariable(e.name))
                && ExprLen(e) == 1 && ExprLevels(e, l) == Rise(l, [0, 1]))
            || (e.Lambda? && LambdaAt(code, pc) && ExprLen(e) == 1 && ExprLevels(e, l) == Rise(l, [0, 1]))
            || (e.ListOf?
                && ExprsAt(g, code, e.items, pc) && Is(code, pc + ExprsLen(e.items), Gathering(MakeList, e.items))
                && ExprLen(e) == ExprsLen(e.items) + 1
                && ExprLevels(e, l) == Then(ExprsLevels(e.items, l), Rise(l, [|e.items|, 1])))
  {
    hide LitAt, ExprsAt, Is, ShortAt, Are, LitLevels, ExprsLevels, Then, Rise, ShortLevels, Arity, Callable, LitsAt;
    hide LitsLen, Lower, NulFree;
  }

  lemma {:induction false} BasicSettles(g: Scope, code: seq<Slot>, e: Expr, pc: nat, l: Level)
    requires ExprAt(g, code, e, pc) && Proper(l) && (e.Literal? || e.Variable? || e.Lambda? || e.ListOf?)
    ensures Settles(g.fns, code, ExprLevels(e, l), pc, ExprLen(e), l, Up(l, 1))
    decreases ExprLen(e), 1
  {
    hide ExprAt, ExprLen, Settles, Proper, ExprLevels, Then, Rise, Effect, LitAt, Is;
    BasicAt(g, code, e, pc, l);
    assert Up(l, 0) == l;
    if e.Literal? {
      LitSettles(g.fns, code, e.v, pc, l);
    } else if e.Variable? {
      NameEffect(e.name, 0);
      Takes(g.fns, code, pc, PushVariable(e.name), l, 0, 1);
    } else if e.Lambda? {
      ClosureSettles(g.fns, code, pc, l);
    } else {
      GatherSettles(g, code, e.items, MakeList, pc, l);
    }
  }

  lemma {:induction false} GatherSettles(g: Scope, code: seq<Slot>, items: seq<Expr>, vop: VariadicOp, pc: nat,
                                         l: Level)
    requires ExprsAt(g, code, items, pc) && Proper(l) && !vop.StrCat?
    requires Is(code, pc + ExprsLen(items), Gathering(vop, items))
    ensures Settles(g.fns, code, Then(ExprsLevels(items, l), Rise(l, [|items|, 1])), pc, ExprsLen(items) + 1, l,
                    Up(l, 1))
    decreases ExprsLen(items), |items| + 4
  {
    hide Settles, Proper, Then, Rise, Effect, Is, ExprsAt, ExprsLevels;
    var n := |items|;
    ExprsSettle(g, code, items, pc, l);
    GatherEffect(vop, n);
    Takes(g.fns, code, pc + ExprsLen(items), Variadic(vop, Fixed(n)), l, n, 1);
    Joins(g.fns, code, ExprsLevels(items, l), Rise(l, [n, 1]), pc, ExprsLen(items), 1, l, Up(l, n), Up(l, 1));
  }

  lemma SimpleLevels(op: SimpleOp, args: seq<Expr>, l: Level)
    ensures ExprLevels(Simple(op, args), l) == Then(ExprsLevels(args, l), Rise(l, [|args|, 1]))
  {
    hide Then, Rise, ExprsLevels;
  }

  lemma {:induction false} SimpleSettles(g: Scope, code: seq<Slot>, e: Expr, pc: nat, l: Level)
    requires e.Simple? && ExprAt(g, code, e, pc) && Proper(l)
    ensures Settles(g.fns, code, ExprLevels(e, l), pc, ExprLen(e), l, Up(l, 1))
    decreases ExprLen(e), 1
  {
    hide *;
    SimpleParts(g, code, e.op, e.args, pc);
    SimpleLevels(e.op, e.args, l);
    var n := |e.args|;
    LowerEffect(e.op, n);
    ExprsSettle(g, code, e.args, pc, l);
    Takes(g.fns, code, pc + ExprsLen(e.args), Lower(e.op), l, n, 1);
    Joins(g.fns, code, ExprsLevels(e.args, l), Rise(l, [n, 1]), pc, ExprsLen(e.args), 1, l, Up(l, n), Up(l, 1));
  }

  lemma {:induction false} ReduceAt(g: Scope, code: seq<Slot>, e: Expr, pc: nat, l: Level)
    requires e.Reduce? && ExprAt(g, code, e, pc)
    ensures !e.vop.StrCat?
    ensures || (e.src.ListOf?
                && var items := e.src.items;
                && ExprsAt(g, code, items, pc) && Is(code, pc + ExprsLen(items), Gathering(e.vop, items))
                && ExprLen(e) == ExprsLen(items) + 1
                && ExprLevels(e, l) == Then(ExprsLevels(items, l), Rise(l, [|items|, 1])))
            || (Written(e.src)
                && var items := e.src.v.items;
                && LitsAt(code, items, pc) && Is(code, pc + LitsLen(items), Gathering(e.vop, items))
                && ExprLen(e) == LitsLen(items) + 1
                && ExprLevels(e, l) == Then(LitsLevels(items, l), Rise(l, [|items|, 1])))
            || (!e.src.ListOf? && !Written(e.src)
                && ExprAt(g, code, e.src, pc) && Is(code, pc + ExprLen(e.src), Variadic(e.vop, Dynamic))
                && ExprLen(e) == ExprLen(e.src) + 1
                && ExprLevels(e, l) == Then(ExprLevels(e.src, l), Rise(l, [1, 1])))
  {
    hide LitAt, LitsAt, ExprsAt, Is, ShortAt, Are, LitsLevels, ExprsLevels, Then, Rise, ShortLevels;
  }

  lemma {:induction false} ReduceSettles(g: Scope, code: seq<Slot>, e: Expr, pc: nat, l: Level)
    requires e.Reduce? && ExprAt(g, code, e, pc) && Proper(l)
    ensures Settles(g.fns, code, ExprLevels(e, l), pc, ExprLen(e), l, Up(l, 1))
    decreases ExprLen(e), 1
  {
    hide LitsAt, LitsLevels;
    hide ExprAt, ExprsAt, ExprLen, Settles, Proper, ExprLevels, ExprsLevels, Then, Rise, Effect, Is, Are;
    ReduceAt(g, code, e, pc, l);
    if e.src.ListOf? {
      GatherSettles(g, code, e.src.items, e.vop, pc, l);
    } else if Written(e.src) {
      var vs := e.src.v.items;
      LitsSettle(g.fns, code, vs, pc, l);
      GatherEffect(e.vop, |vs|);
      Takes(g.fns, code, pc + LitsLen(vs), Variadic(e.vop, Fixed(|vs|)), l, |vs|, 1);
      Joins(g.fns, code, LitsLevels(vs, l), Rise(l, [|vs|, 1]), pc, LitsLen(vs), 1, l, Up(l, |vs|), Up(l, 1));
    } else {
      ExprSettles(g, code, e.src, pc, l);
      GatherEffect(e.vop, 0);
      Takes(g.fns, code, pc + ExprLen(e.src), Variadic(e.vop, Dynamic), l, 1, 1);
      Joins(g.fns, code, ExprLevels(e.src, l), Rise(l, [1, 1]), pc, ExprLen(e.src), 1, l, Up(l, 1), Up(l, 1));
    }
  }

  lemma ChoiceLevels(e: Expr, l: Level)
    requires e.Conditional?
    ensures ExprLevels(e, l) == Then(ExprLevels(e.cond, l), Then(Rise(l, [1, 0]), Then(ExprLevels(e.then_, l),
                                  Then(Rise(l, [1, 0]), ExprLevels(e.else_, l)))))
  {
    hide Then, Rise;
  }

  lemma {:induction false} ChoiceSettles(g: Scope, code: seq<Slot>, e: Expr, pc: nat, l: Level)
    requires e.Conditional? && ExprAt(g, code, e, pc) && Proper(l)
    ensures Settles(g.fns, code, ExprLevels(e, l), pc, ExprLen(e), l, Up(l, 1))
    decreases ExprLen(e), 1
  {
    hide ExprAt, ExprsAt, ExprLen, Settles, Proper, ExprLevels, ExprsLevels, Then, Rise, Effect, Is, Are;
    ConditionalParts(g, code, e.cond, e.then_, e.else_, pc);
    ChoiceLevels(e, l);
    var n, k, m := ExprLen(e.cond), ExprLen(e.then_), ExprLen(e.else_);
    ExprSettles(g, code, e.cond, pc, l);
    ExprSettles(g, code, e.then_, pc + n + 1, l);
    ExprSettles(g, code, e.else_, pc + n + k + 2, l);
    ConditionalSettles(g.fns, code, ExprLevels(e.cond, l), ExprLevels(e.then_, l), ExprLevels(e.else_, l), n, k, m, pc,
                       l);
  }

  lemma {:induction false} EitherAt(g: Scope, code: seq<Slot>, e: Expr, pc: nat, l: Level)
    requires ExprAt(g, code, e, pc) && (e.Or? || e.And?)
    ensures ShortAt(g, code, e.left, e.right, e.Or?, pc) && ExprLen(e) == ExprLen(e.left) + ExprLen(e.right) + 4
    ensures ExprLevels(e, l) == ShortLevels(ExprLevels(e.left, l), ExprLevels(e.right, l), l)
  {
    hide ShortAt, ShortLevels, Are, Arity, Callable, ExprsAt, ExprsLen, Is, LitAt, LitLen, LitsAt, LitsLen, Lower;
    hide NulFree;
  }

  lemma {:induction false} EitherSettles(g: Scope, code: seq<Slot>, e: Expr, pc: nat, l: Level)
    requires (e.Or? || e.And?) && ExprAt(g, code, e, pc) && Proper(l)
    ensures Settles(g.fns, code, ExprLevels(e, l), pc, ExprLen(e), l, Up(l, 1))
    decreases ExprLen(e), 1
  {
    hide *;
    EitherAt(g, code, e, pc, l);
    ShortParts(g, code, e.left, e.right, e.Or?, pc);
    var n, k := ExprLen(e.left), ExprLen(e.right);
    ExprSettles(g, code, e.left, pc, l);
    ExprSettles(g, code, e.right, pc + n + 3, l);
    ShortSettles(g.fns, code, ExprLevels(e.left, l), ExprLevels(e.right, l), n, k, e.Or?, pc, l);
  }

  lemma NamedLevels(e: Expr, l: Level)
    requires e.CallFn?
    ensures ExprLevels(e, l) == Then(Evenly(l, |e.upvars|), Then(ExprsLevels(e.args, l), Rise(l, [|e.args|, 1])))
  {
    hide Then, Rise, Evenly, ExprsLevels;
  }

  lemma {:induction false} NamedSettles(g: Scope, code: seq<Slot>, e: Expr, pc: nat, l: Level)
    requires e.CallFn? && ExprAt(g, code, e, pc) && Proper(l)
    ensures Settles(g.fns, code, ExprLevels(e, l), pc, ExprLen(e), l, Up(l, 1))
    decreases ExprLen(e), 1
  {
    hide Evenly, DeclaresAt, Callable;
    hide ExprAt, ExprsAt, ExprLen, Settles, Proper, ExprLevels, ExprsLevels, Then, Rise, Effect, Is, Are;
    CallFnParts(g, code, e.function_, e.args, e.upvars, pc);
    NamedLevels(e, l);
    CallPasses(g, code, e.function_, e.args, e.upvars, pc, l);
  }

  /** A call to a custom block: declarations, arguments, and the call itself. */
  lemma {:induction false} CallPasses(g: Scope, code: seq<Slot>, name: Str, args: seq<Expr>, upvars: seq<Str>, pc: nat,
                                      l: Level)
    requires Proper(l) && DeclaresAt(code, upvars, pc) && ExprsAt(g, code, args, pc + |upvars|)
             && Callable(g, name, |args|)
    requires Hole(code, pc + |upvars| + ExprsLen(args), CallHole(name, g.ent))
    ensures Settles(g.fns, code, Then(Evenly(l, |upvars|), Then(ExprsLevels(args, l), Rise(l, [|args|, 1]))), pc,
                    |upvars| + ExprsLen(args) + 1, l, Up(l, 1))
    decreases ExprsLen(args), |args| + 4
  {
    hide Evenly, DeclaresAt, Callable;
    hide ExprAt, ExprsAt, ExprLen, Settles, Proper, ExprLevels, ExprsLevels, Then, Rise, Effect, Is, Are;
    var n, k, m := |upvars|, ExprsLen(args), |args|;
    DeclaresSettle(g.fns, code, upvars, pc, l);
    ExprsSettle(g, code, args, pc + n, l);
    CallSettles(g, code, name, m, pc + n + k, l);
    Joins(g.fns, code, ExprsLevels(args, l), Rise(l, [m, 1]), pc + n, k, 1, l, Up(l, m), Up(l, 1));
    Joins(g.fns, code, Evenly(l, n), Then(ExprsLevels(args, l), Rise(l, [m, 1])), pc, n, k + 1, l, l, Up(l, 1));
  }

  lemma ApplyLevels(e: Expr, l: Level)
    requires e.CallValue?
    ensures ExprLevels(e, l)
              == Then(ExprLevels(e.closure, l), Then(ExprsLevels(e.args, Up(l, 1)), Rise(l, [|e.args| + 1, 1])))
  {
    hide Then, Rise, ExprsLevels;
  }

  lemma {:induction false} ApplySettles(g: Scope, code: seq<Slot>, e: Expr, pc: nat, l: Level)
    requires e.CallValue? && ExprAt(g, code, e, pc) && Proper(l)
    ensures Settles(g.fns, code, ExprLevels(e, l), pc, ExprLen(e), l, Up(l, 1))
    decreases ExprLen(e), 1
  {
    hide ExprAt, ExprsAt, ExprLen, Settles, Proper, ExprLevels, ExprsLevels, Then, Rise, Effect, Is, Are;
    CallValueParts(g, code, e.closure, e.args, pc);
    ApplyLevels(e, l);
    ApplyPasses(g, code, e.closure, e.args, pc, l);
  }

  /** A call to a closure: the closure, the arguments, and the call itself. */
  lemma {:induction false} ApplyPasses(g: Scope, code: seq<Slot>, f: Expr, args: seq<Expr>, pc: nat, l: Level)
    requires Proper(l) && ExprAt(g, code, f, pc) && ExprsAt(g, code, args, pc + ExprLen(f))
    requires Is(code, pc + ExprLen(f) + ExprsLen(args), Calling(args))
    ensures Settles(g.fns, code, Then(ExprLevels(f, l), Then(ExprsLevels(args, Up(l, 1)), Rise(l, [|args| + 1, 1]))),
                    pc,
                    ExprLen(f) + ExprsLen(args) + 1, l, Up(l, 1))
    decreases ExprLen(f) + ExprsLen(args), |args| + 4
  {
    hide ExprAt, ExprsAt, ExprLen, Settles, Proper, ExprLevels, ExprsLevels, Then, Rise, Effect, Is, Are;
    var n, k, m := ExprLen(f), ExprsLen(args), |args|;
    ExprSettles(g, code, f, pc, l);
    UpProper(l, 1);
    ExprsSettle(g, code, args, pc + n, Up(l, 1));
    assert Up(Up(l, 1), m) == Up(l, m + 1);
    NameEffect([], m);
    Takes(g.fns, code, pc + n + k, CallClosure(false, m), l, m + 1, 1);
    Joins(g.fns, code, ExprsLevels(args, Up(l, 1)), Rise(l, [m + 1, 1]), pc + n, k, 1, Up(l, 1), Up(l, m + 1),
          Up(l, 1));
    Joins(g.fns, code, ExprLevels(f, l), Then(ExprsLevels(args, Up(l, 1)), Rise(l, [m + 1, 1])), pc, n, k + 1, l,
          Up(l, 1), Up(l, 1));
  }

  lemma HigherLevels(e: Expr, l: Level)
    requires e.Map? || e.Keep? || e.FindFirst?
    ensures ExprLevels(e, l)
              == Then(ExprLevels(e.f, l), Then(ExprLevels(e.list, Up(l, 1)),
                                               Rise(l, if e.Map? then MAPS else if e.Keep? then KEEPS else FINDS)))
  {
    hide Then, Rise;
  }

  lemma HigherRow(fns: FnTable, code: seq<Slot>, e: Expr, q: nat, l: Level)
    requires Proper(l)
    requires (e.Map? && Are(code, q, MapCode(q))) || (e.Keep? && Are(code, q, KeepCode(q)))
             || (e.FindFirst? && Are(code, q, FindCode(q)))
    ensures Settles(fns, code, Rise(l, if e.Map? then MAPS else if e.Keep? then KEEPS else FINDS), q, if e.Keep?
                    then 17 else 14,
                    Up(l, 2), Up(l, 1))
  {
    hide Settles, Proper, Rise, Are, Climbs;
    if e.Map? {
      MapClimbs(q);
      Closed(fns, code, q, MapCode(q), MAPS, l);
    } else if e.Keep? {
      KeepClimbs(q);
      Closed(fns, code, q, KeepCode(q), KEEPS, l);
    } else {
      FindClimbs(q);
      Closed(fns, code, q, FindCode(q), FINDS, l);
    }
  }

  lemma {:induction false} HigherSettles(g: Scope, code: seq<Slot>, e: Expr, pc: nat, l: Level)
    requires (e.Map? || e.Keep? || e.FindFirst?) && ExprAt(g, code, e, pc) && Proper(l)
    ensures Settles(g.fns, code, ExprLevels(e, l), pc, ExprLen(e), l, Up(l, 1))
    decreases ExprLen(e), 1
  {
    hide MapCode, KeepCode, FindCode;
    hide ExprAt, ExprsAt, ExprLen, Settles, Proper, ExprLevels, ExprsLevels, Then, Rise, Effect, Is, Are;
    if e.Map? {
      MapParts(g, code, e.f, e.list, pc);
    } else if e.Keep? {
      KeepParts(g, code, e.f, e.list, pc);
    } else {
      FindParts(g, code, e.f, e.list, pc);
    }
    HigherLevels(e, l);
    var n, k, m := ExprLen(e.f), ExprLen(e.list), if e.Keep? then 17 else 14;
    var row := Rise(l, if e.Map? then MAPS else if e.Keep? then KEEPS else FINDS);
    ExprSettles(g, code, e.f, pc, l);
    UpProper(l, 1);
    ExprSettles(g, code, e.list, pc + n, Up(l, 1));
    assert Up(Up(l, 1), 1) == Up(l, 2);
    HigherRow(g.fns, code, e, pc + n + k, l);
    Joins(g.fns, code, ExprLevels(e.list, Up(l, 1)), row, pc + n, k, m, Up(l, 1), Up(l, 2), Up(l, 1));
    Joins(g.fns, code, ExprLevels(e.f, l), Then(ExprLevels(e.list, Up(l, 1)), row), pc, n, k + m, l, Up(l, 1),
          Up(l, 1));
  }

  lemma FoldLevels(e: Expr, l: Level)
    requires e.FoldWith?
    ensures ExprLevels(e, l)
              == Then(ExprLevels(e.list, l), Then(Rise(l, [1, 1]), Then(ExprLevels(e.f, Up(l, 1)), Rise(l, FOLDS))))
  {
    hide Then, Rise;
  }

  lemma {:induction false} FoldSettles(g: Scope, code: seq<Slot>, e: Expr, pc: nat, l: Level)
    requires e.FoldWith? && ExprAt(g, code, e, pc) && Proper(l)
    ensures Settles(g.fns, code, ExprLevels(e, l), pc, ExprLen(e), l, Up(l, 1))
    decreases ExprLen(e), 1
  {
    hide Climbs;
    hide ExprAt, ExprsAt, ExprLen, Settles, Proper, ExprLevels, ExprsLevels, Then, Rise, Effect, Is, Are;
    FoldParts(g, code, e.f, e.list, pc);
    FoldLevels(e, l);
    var n, k := ExprLen(e.list), ExprLen(e.f);
    ExprSettles(g, code, e.list, pc, l);
    GatherEffect(MakeList, 0);
    Takes(g.fns, code, pc + n, Variadic(MakeList, Dynamic), l, 1, 1);
    UpProper(l, 1);
    ExprSettles(g, code, e.f, pc + n + 1, Up(l, 1));
    assert Up(Up(l, 1), 1) == Up(l, 2);
    FoldClimbs(pc + n + 1 + k);
    Closed(g.fns, code, pc + n + 1 + k, FoldCode(pc + n + 1 + k), FOLDS, l);
    var x := Then(ExprLevels(e.f, Up(l, 1)), Rise(l, FOLDS));
    Joins(g.fns, code, ExprLevels(e.f, Up(l, 1)), Rise(l, FOLDS), pc + n + 1, k, 15, Up(l, 1), Up(l, 2), Up(l, 1));
    Joins(g.fns, code, Rise(l, [1, 1]), x, pc + n, 1, k + 15, Up(l, 1), Up(l, 1), Up(l, 1));
    Joins(g.fns, code, ExprLevels(e.list, l), Then(Rise(l, [1, 1]), x), pc, n, k + 16, l, Up(l, 1), Up(l, 1));
  }

  // ----- statements -----

  lemma {:induction false} StmtsSettle(g: Scope, code: seq<Slot>, ss: seq<Stmt>, pc: nat, l: Level)
    requires StmtsAt(g, code, ss, pc) && Proper(l)
    ensures Settles(g.fns, code, StmtsLevels(ss, l), pc, StmtsLen(ss), l, l)
    decreases StmtsLen(ss), |ss| + 3
  {
    hide Settles, Proper, StmtAt, Then, Rise, StmtLen, StmtLevels;
    if ss == [] {
      Nothing(g.fns, code, pc, l);
    } else {
      var a, b := StmtLen(ss[0]), StmtsLen(ss[1..]);
      StmtSettles(g, code, ss[0], pc, l);
      StmtsSettle(g, code, ss[1..], pc + a, l);
      Joins(g.fns, code, StmtLevels(ss[0], l), StmtsLevels(ss[1..], l), pc, a, b, l, l, l);
    }
  }

  /** Every statement leaves the level it found. */
  lemma {:induction false} StmtSettles(g: Scope, code: seq<Slot>, t: Stmt, pc: nat, l: Level)
    requires StmtAt(g, code, t, pc) && Proper(l)
    ensures Settles(g.fns, code, StmtLevels(t, l), pc, StmtLen(t), l, l)
    decreases StmtLen(t), 2
  {
    hide StmtAt, StmtLen, StmtLevels, Settles, Proper;
    if t.SetVar? || t.ChangeVar? || t.ReturnValue? {
      ValueSettles(g, code, t, pc, l);
    } else if t.DeclareLocals? || t.Do? {
      DoSettles(g, code, t, pc, l);
    } else if t.RunFn? || t.RunValue? {
      RunSettles(g, code, t, pc, l);
    } else if t.Repeat? || t.ForLoop? || t.ForeachLoop? {
      CountSettles(g, code, t, pc, l);
    } else if t.If? || t.IfElse? {
      BranchSettles(g, code, t, pc, l);
    } else if t.TryCatch? {
      CatchSettles(g, code, t, pc, l);
    } else {
      EndlessSettles(g, code, t, pc, l);
    }
  }

  lemma {:induction false} ValueAt(g: Scope, code: seq<Slot>, t: Stmt, pc: nat, l: Level)
    requires StmtAt(g, code, t, pc) && (t.SetVar? || t.ChangeVar? || t.ReturnValue?)
    ensures ExprAt(g, code, t.value, pc) && StmtLen(t) == ExprLen(t.value) + 1
    ensures StmtLevels(t, l) == Then(ExprLevels(t.value, l), Rise(l, [1, 0]))
    ensures || (t.SetVar? && Is(code, pc + ExprLen(t.value), Assign(t.name)))
            || (t.ChangeVar? && Is(code, pc + ExprLen(t.value), BinaryOpAssign(t.name, Add)))
            || (t.ReturnValue? && Is(code, pc + ExprLen(t.value), Return))
  {
    hide ExprAt, ExprsAt, StmtsAt, ExprLen, ExprLevels, Then, Rise, Is, Are, ForAt;
  }

  lemma AssignEffect(name: Str, op: BinaryOp)
    ensures Effect(Assign(name)) == Some((1, 0)) && Effect(BinaryOpAssign(name, op)) == Some((1, 0))
  {
  }

  lemma ReturnSettles(fns: FnTable, code: seq<Slot>, pc: nat, l: Level)
    requires Is(code, pc, Return) && Proper(l)
    ensures Settles(fns, code, Rise(l, [1, 0]), pc, 1, Up(l, 1), l)
  {
    hide Proper, Leads, Effect;
    UpProper(l, 1);
    assert Rise(l, [1, 0]) == [Up(l, 1), l];
    One(fns, code, pc, Return, Up(l, 1), l, Cells([Up(l, 1), l], pc));
  }

  lemma ValueSettles(g: Scope, code: seq<Slot>, t: Stmt, pc: nat, l: Level)
    requires (t.SetVar? || t.ChangeVar? || t.ReturnValue?) && StmtAt(g, code, t, pc) && Proper(l)
    ensures Settles(g.fns, code, StmtLevels(t, l), pc, StmtLen(t), l, l)
  {
    hide StmtAt, StmtsAt, StmtLen, StmtsLen, StmtLevels, StmtsLevels, Settles, Proper, Then, Rise;
    hide ExprAt, ExprLen, ExprLevels, ExprsAt, ExprsLen, ExprsLevels, Effect, Is, Are;
    ValueAt(g, code, t, pc, l);
    var n := ExprLen(t.value);
    assert Up(l, 0) == l;
    ExprSettles(g, code, t.value, pc, l);
    if t.ReturnValue? {
      ReturnSettles(g.fns, code, pc + n, l);
    } else {
      AssignEffect(t.name, Add);
      Takes(g.fns, code, pc + n, if t.SetVar? then Assign(t.name) else BinaryOpAssign(t.name, Add), l, 1, 0);
    }
    Joins(g.fns, code, ExprLevels(t.value, l), Rise(l, [1, 0]), pc, n, 1, l, Up(l, 1), l);
  }

  lemma {:induction false} DoAt(g: Scope, code: seq<Slot>, t: Stmt, pc: nat, l: Level)
    requires StmtAt(g, code, t, pc) && (t.DeclareLocals? || t.Do?)
    ensures || (t.DeclareLocals? && DeclaresAt(code, t.names, pc)
                && StmtLen(t) == |t.names| && StmtLevels(t, l) == Evenly(l, |t.names|))
            || (t.Do?
                && Arity(LowerDo(t.op)) == Some(|t.args|) && ExprsAt(g, code, t.args, pc)
                && Is(code, pc + ExprsLen(t.args), LowerDo(t.op)) && StmtLen(t) == ExprsLen(t.args) + 1
                && StmtLevels(t, l) == Then(ExprsLevels(t.args, l), Rise(l, [|t.args|, 0])))
  {
    hide ExprAt, ExprsAt, StmtsAt, ExprsLen, ExprsLevels, Then, Rise, Is, Are, ForAt, Arity, DeclaresAt, Evenly;
    hide Callable, ExprLen, StmtsLen;
  }

  lemma DoEffect(op: SimpleDo, n: nat)
    requires Arity(LowerDo(op)) == Some(n)
    ensures Effect(LowerDo(op)) == Some((n, 0))
  {
  }

  lemma DoSettles(g: Scope, code: seq<Slot>, t: Stmt, pc: nat, l: Level)
    requires (t.DeclareLocals? || t.Do?) && StmtAt(g, code, t, pc) && Proper(l)
    ensures Settles(g.fns, code, StmtLevels(t, l), pc, StmtLen(t), l, l)
  {
    hide Evenly, DeclaresAt, Arity;
    hide StmtAt, StmtsAt, StmtLen, StmtsLen, StmtLevels, StmtsLevels, Settles, Proper, Then, Rise;
    hide ExprAt, ExprLen, ExprLevels, ExprsAt, ExprsLen, ExprsLevels, Effect, Is, Are;
    DoAt(g, code, t, pc, l);
    if t.DeclareLocals? {
      DeclaresSettle(g.fns, code, t.names, pc, l);
    } else {
      var n, k := ExprsLen(t.args), |t.args|;
      assert Up(l, 0) == l;
      DoEffect(t.op, k);
      ExprsSettle(g, code, t.args, pc, l);
      Takes(g.fns, code, pc + n, LowerDo(t.op), l, k, 0);
      Joins(g.fns, code, ExprsLevels(t.args, l), Rise(l, [k, 0]), pc, n, 1, l, Up(l, k), l);
    }
  }

  // The calls of statements are those of expressions, and one instruction that drops the value.

  lemma {:induction false} RunAt(g: Scope, code: seq<Slot>, t: Stmt, pc: nat, l: Level)
    requires StmtAt(g, code, t, pc) && (t.RunFn? || t.RunValue?)
    ensures || (t.RunFn?
                && var n := |t.upvars| + ExprsLen(t.args);
                && DeclaresAt(code, t.upvars, pc) && ExprsAt(g, code, t.args, pc + |t.upvars|)
                && Callable(g, t.function_, |t.args|)
                && Hole(code, pc + n, CallHole(t.function_, g.ent)) && Is(code, pc + n + 1, PopValue)
                && StmtLen(t) == n + 2
                && StmtLevels(t, l)
                   == Then(Evenly(l, |t.upvars|), Then(ExprsLevels(t.args, l), Rise(l, [|t.args|, 1, 0]))))
            || (t.RunValue?
                && ExprAt(g, code, t.closure, pc) && ExprsAt(g, code, t.args, pc + ExprLen(t.closure))
                && Are(code, pc + ExprLen(t.closure) + ExprsLen(t.args), [Calling(t.args), PopValue])
                && StmtLen(t) == ExprLen(t.closure) + ExprsLen(t.args) + 2
                && StmtLevels(t, l) == Then(ExprLevels(t.closure, l), Then(ExprsLevels(t.args, Up(l, 1)),
                                                                           Rise(l, [|t.args| + 1, 1, 0]))))
  {
    hide ExprAt, ExprsAt, StmtsAt, ExprsLen, ExprLen, ExprLevels, ExprsLevels, Then, Rise, Is, Are, ForAt, Arity;
    hide DeclaresAt, Evenly;
    hide Callable;
  }

  lemma ThenThen(a: seq<Level>, b: seq<Level>, l: Level, n: nat)
    requires a != [] && b != []
    ensures Then(a, Then(b, Rise(l, [n, 1, 0]))) == Then(Then(a, Then(b, Rise(l, [n, 1]))), Rise(l, [1, 0]))
  {
    var x := Then(b, Rise(l, [n, 1]));
    assert Then(a, x)[..|Then(a, x)| - 1] == a[..|a| - 1] + (b[..|b| - 1] + [Up(l, n)]);
  }

  lemma LevelsNonEmpty(g: Scope, code: seq<Slot>, ls: seq<Level>, pc: nat, n: nat, from: Level, to: Level)
    requires Settles(g.fns, code, ls, pc, n, from, to)
    ensures ls != []
  {
    hide Steady, Cells;
  }

  lemma {:induction false} RunSettles(g: Scope, code: seq<Slot>, t: Stmt, pc: nat, l: Level)
    requires (t.RunFn? || t.RunValue?) && StmtAt(g, code, t, pc) && Proper(l)
    ensures Settles(g.fns, code, StmtLevels(t, l), pc, StmtLen(t), l, l)
  {
    hide Evenly, DeclaresAt, Callable;
    hide StmtAt, StmtsAt, StmtLen, StmtsLen, StmtLevels, StmtsLevels, Settles, Proper, Then, Rise;
    hide ExprAt, ExprLen, ExprLevels, ExprsAt, ExprsLen, ExprsLevels, Effect, Is, Are;
    RunAt(g, code, t, pc, l);
    var n, k, m := if t.RunFn? then |t.upvars| else ExprLen(t.closure), ExprsLen(t.args), |t.args|;
    assert Up(l, 0) == l;
    StackEffects();
    if t.RunFn? {
      CallPasses(g, code, t.function_, t.args, t.upvars, pc, l);
      DeclaresSettle(g.fns, code, t.upvars, pc, l);
      LevelsNonEmpty(g, code, Evenly(l, n), pc, n, l, l);
      ExprsSettle(g, code, t.args, pc + n, l);
      LevelsNonEmpty(g, code, ExprsLevels(t.args, l), pc + n, k, l, Up(l, m));
      ThenThen(Evenly(l, n), ExprsLevels(t.args, l), l, m);
      Takes(g.fns, code, pc + n + k + 1, PopValue, l, 1, 0);
      Joins(g.fns, code, Then(Evenly(l, n), Then(ExprsLevels(t.args, l), Rise(l, [m, 1]))), Rise(l, [1, 0]), pc,
            n + k + 1, 1, l, Up(l, 1), l);
    } else {
      AreIs(code, pc + n + k, [CallClosure(false, m), PopValue], 0);
      AreIs(code, pc + n + k, [CallClosure(false, m), PopValue], 1);
      ApplyPasses(g, code, t.closure, t.args, pc, l);
      ExprSettles(g, code, t.closure, pc, l);
      LevelsNonEmpty(g, code, ExprLevels(t.closure, l), pc, n, l, Up(l, 1));
      UpProper(l, 1);
      ExprsSettle(g, code, t.args, pc + n, Up(l, 1));
      LevelsNonEmpty(g, code, ExprsLevels(t.args, Up(l, 1)), pc + n, k, Up(l, 1), Up(Up(l, 1), m));
      ThenThen(ExprLevels(t.closure, l), ExprsLevels(t.args, Up(l, 1)), l, m + 1);
      Takes(g.fns, code, pc + n + k + 1, PopValue, l, 1, 0);
      Joins(g.fns, code, Then(ExprLevels(t.closure, l), Then(ExprsLevels(t.args, Up(l, 1)), Rise(l, [m + 1, 1]))),
            Rise(l, [1, 0]),
            pc, n + k + 1, 1, l, Up(l, 1), l);
    }
  }

  lemma BranchAt(g: Scope, code: seq<Slot>, t: Stmt, pc: nat, l: Level)
    requires t.If? && StmtAt(g, code, t, pc)
    ensures ExprAt(g, code, t.cond, pc) && StmtsAt(g, code, t.then_, pc + ExprLen(t.cond) + 1)
    ensures Is(code, pc + ExprLen(t.cond), ConditionalJump(pc + ExprLen(t.cond) + 1 + StmtsLen(t.then_), false))
    ensures StmtLen(t) == ExprLen(t.cond) + StmtsLen(t.then_) + 1
    ensures StmtLevels(t, l) == Then(ExprLevels(t.cond, l), Then(Rise(l, [1, 0]), StmtsLevels(t.then_, l)))
  {
    hide ExprAt, ExprsAt, StmtsAt, ExprLen, StmtsLen, ExprLevels, StmtsLevels, Then, Rise, Is, Are, ForAt;
  }

  lemma ElseLevels(t: Stmt, l: Level)
    requires t.IfElse?
    ensures StmtLevels(t, l) == Then(ExprLevels(t.cond, l), Then(Rise(l, [1, 0]), Then(StmtsLevels(t.then_, l),
                                  Then(Rise(l, [0, 0]), StmtsLevels(t.else_, l)))))
  {
    hide ExprLevels, StmtsLevels, Then, Rise;
  }

  lemma {:induction false} BranchSettles(g: Scope, code: seq<Slot>, t: Stmt, pc: nat, l: Level)
    requires (t.If? || t.IfElse?) && StmtAt(g, code, t, pc) && Proper(l)
    ensures Settles(g.fns, code, StmtLevels(t, l), pc, StmtLen(t), l, l)
    decreases StmtLen(t), 1
  {
    hide StmtAt, StmtsAt, StmtLen, StmtsLen, StmtLevels, StmtsLevels, Settles, Proper, Then, Rise;
    hide ExprAt, ExprLen, ExprLevels, ExprsAt, ExprsLen, ExprsLevels, Effect, Is, Are;
    if t.If? {
      BranchAt(g, code, t, pc, l);
    } else {
      IfElseParts(g, code, t.cond, t.then_, t.else_, pc);
      ElseLevels(t, l);
    }
    var n, k := ExprLen(t.cond), StmtsLen(t.then_);
    ExprSettles(g, code, t.cond, pc, l);
    StmtsSettle(g, code, t.then_, pc + n + 1, l);
    if t.If? {
      IfSettles(g.fns, code, ExprLevels(t.cond, l), StmtsLevels(t.then_, l), n, k, pc, l);
    } else {
      StmtsSettle(g, code, t.else_, pc + n + k + 2, l);
      IfElseSettles(g.fns, code, ExprLevels(t.cond, l), StmtsLevels(t.then_, l), StmtsLevels(t.else_, l), n, k,
                    StmtsLen(t.else_), pc, l);
    }
  }

  lemma CatchLevels(t: Stmt, l: Level)
    requires t.TryCatch?
    ensures StmtLevels(t, l) == TryLevels(StmtsLevels(t.body, Marked(l)), StmtsLevels(t.handler, l), l)
  {
    hide StmtsLevels, TryLevels;
  }

  lemma {:induction false} CatchSettles(g: Scope, code: seq<Slot>, t: Stmt, pc: nat, l: Level)
    requires t.TryCatch? && StmtAt(g, code, t, pc) && Proper(l)
    ensures Settles(g.fns, code, StmtLevels(t, l), pc, StmtLen(t), l, l)
    decreases StmtLen(t), 1
  {
    hide *;
    TryParts(g, code, t.body, t.name, t.handler, pc);
    CatchLevels(t, l);
    var n, k := StmtsLen(t.body), StmtsLen(t.handler);
    var row := [PopHandler, Jump(pc + 1 + n + 3 + k), PopHandler];
    AreIs(code, pc + 1 + n, row, 0);
    AreIs(code, pc + 1 + n, row, 1);
    AreIs(code, pc + 1 + n, row, 2);
    MarkedProper(l);
    StmtsSettle(g, code, t.body, pc + 1, Marked(l));
    StmtsSettle(g, code, t.handler, pc + n + 4, l);
    TrySettles(g.fns, code, StmtsLevels(t.body, Marked(l)), StmtsLevels(t.handler, l), t.name, n, k, pc, l);
  }

  lemma {:induction false} EndlessAt(g: Scope, code: seq<Slot>, t: Stmt, pc: nat, l: Level)
    requires StmtAt(g, code, t, pc) && (t.Warp? || t.InfLoop?)
    ensures StmtLen(t) == StmtsLen(t.body) + 2
    ensures || (t.Warp?
                && StmtsAt(g, code, t.body, pc + 1)
                && Is(code, pc, WarpStart) && Is(code, pc + 1 + StmtsLen(t.body), WarpStop)
                && StmtLevels(t, l) == Then(Rise(l, [0, 0]), Then(StmtsLevels(t.body, l), Rise(l, [0, 0]))))
            || (t.InfLoop?
                && StmtsAt(g, code, t.body, pc) && Are(code, pc + StmtsLen(t.body), [Yield, Jump(pc)])
                && StmtLevels(t, l) == Then(StmtsLevels(t.body, l), Rise(l, [0, 0, 0])))
  {
    hide ExprAt, ExprsAt, StmtsAt, StmtsLen, StmtsLevels, Then, Rise, Is, Are, ForAt, Arity, Callable, ExprLen;
    hide ExprsLen, LowerDo;
  }

  lemma UntilLevels(t: Stmt, l: Level)
    requires t.UntilLoop?
    ensures StmtLevels(t, l)
              == Then(ExprLevels(t.cond, l), Then(Rise(l, [1, 0]), Then(StmtsLevels(t.body, l), Rise(l, [0, 0, 0]))))
  {
    hide ExprLevels, StmtsLevels, Then, Rise;
  }

  lemma WarpEffect()
    ensures Effect(WarpStart) == Some((0, 0)) && Effect(WarpStop) == Some((0, 0))
  {
  }

  lemma {:induction false} EndlessSettles(g: Scope, code: seq<Slot>, t: Stmt, pc: nat, l: Level)
    requires (t.Warp? || t.InfLoop? || t.UntilLoop?) && StmtAt(g, code, t, pc) && Proper(l)
    ensures Settles(g.fns, code, StmtLevels(t, l), pc, StmtLen(t), l, l)
    decreases StmtLen(t), 1
  {
    hide StmtAt, StmtsAt, StmtLen, StmtsLen, StmtLevels, StmtsLevels, Settles, Proper, Then, Rise;
    hide ExprAt, ExprLen, ExprLevels, ExprsAt, ExprsLen, ExprsLevels, Effect, Is, Are;
    if t.UntilLoop? {
      UntilParts(g, code, t.cond, t.body, pc);
      UntilLevels(t, l);
      var n, k := ExprLen(t.cond), StmtsLen(t.body);
      ExprSettles(g, code, t.cond, pc, l);
      StmtsSettle(g, code, t.body, pc + n + 1, l);
      UntilSettles(g.fns, code, ExprLevels(t.cond, l), StmtsLevels(t.body, l), n, k, pc, l);
    } else {
      EndlessAt(g, code, t, pc, l);
      var n := StmtsLen(t.body);
      if t.InfLoop? {
        StmtsSettle(g, code, t.body, pc, l);
        InfLoopSettles(g.fns, code, StmtsLevels(t.body, l), n, pc, l);
      } else {
        StmtsSettle(g, code, t.body, pc + 1, l);
        WarpEffect();
        assert Up(l, 0) == l;
        Takes(g.fns, code, pc, WarpStart, l, 0, 0);
        Takes(g.fns, code, pc + 1 + n, WarpStop, l, 0, 0);
        Joins(g.fns, code, StmtsLevels(t.body, l), Rise(l, [0, 0]), pc + 1, n, 1, l, l, l);
        Joins(g.fns, code, Rise(l, [0, 0]), Then(StmtsLevels(t.body, l), Rise(l, [0, 0])), pc, 1, n + 1, l, l, l);
      }
    }
  }

  lemma CountLevels(t: Stmt, l: Level)
    requires t.Repeat? || t.ForLoop? || t.ForeachLoop?
    ensures t.Repeat? ==>
              StmtLevels(t, l) == Then(ExprLevels(t.times, l), RepeatLevels(StmtsLevels(t.body, Up(l, 1)), l))
    ensures t.ForLoop? ==>
              StmtLevels(t, l) == Then(RangeLevels(ExprLevels(t.start, l), ExprLevels(t.stop, Up(l, 1)), l),
                                       RoundsLevels(StmtsLevels(t.body, Up(l, 3)), l))
              && StmtLen(t) == ExprLen(t.start) + ExprLen(t.stop) + StmtsLen(t.body) + 33
    ensures t.ForeachLoop? ==>
              StmtLevels(t, l) == Then(Rise(l, [0, 0]), Then(ExprLevels(t.items, l), Then(Rise(l, [1, 1]),
                                    ForeachLevels(StmtsLevels(t.body, Up(l, 1)), l))))
  {
    hide ExprLevels, StmtsLevels, Then, Rise, RepeatLevels, RangeLevels, RoundsLevels, ForeachLevels, ExprLen, StmtsLen;
  }

  lemma ForIs(g: Scope, code: seq<Slot>, t: Stmt, pc: nat)
    requires t.ForLoop? && StmtAt(g, code, t, pc)
    ensures RangeAt(g, code, t.v, t.start, t.stop, pc)
    ensures RoundsAt(g, code, t.v.trans, t.body, pc + 15 + ExprLen(t.start) + ExprLen(t.stop))
  {
    hide RangeAt, RoundsAt, ExprLen;
  }

  lemma {:induction false} RangeSettles(g: Scope, code: seq<Slot>, t: Stmt, pc: nat, l: Level)
    requires t.ForLoop? && RangeAt(g, code, t.v, t.start, t.stop, pc) && Proper(l)
    ensures Settles(g.fns, code, RangeLevels(ExprLevels(t.start, l), ExprLevels(t.stop, Up(l, 1)), l), pc,
                    ExprLen(t.start) + ExprLen(t.stop) + 15, l, Up(l, 3))
  {
    hide Climbs;
    hide StmtAt, StmtsAt, StmtLen, StmtsLen, StmtLevels, StmtsLevels, Settles, Proper, Then, Rise;
    hide ExprAt, ExprLen, ExprLevels, ExprsAt, ExprsLen, ExprsLevels, Effect, Is, Are;
    var n, k := ExprLen(t.start), ExprLen(t.stop);
    var a, b := ExprLevels(t.start, l), ExprLevels(t.stop, Up(l, 1));
    var q := pc + n + k + 3;
    assert Up(l, 0) == l && Up(Up(l, 1), 1) == Up(l, 2);
    DeclareEffect(t.v.name);
    ToBoolEffect();
    Takes(g.fns, code, pc, DeclareLocal(t.v.name), l, 0, 0);
    ExprSettles(g, code, t.start, pc + 1, l);
    Takes(g.fns, code, pc + 1 + n, ToNum, l, 1, 1);
    UpProper(l, 1);
    ExprSettles(g, code, t.stop, pc + n + 2, Up(l, 1));
    ToNumAbove(g.fns, code, pc + n + 2 + k, l);
    PreludeClimbs(q);
    Closed(g.fns, code, q, ForPrelude(q), PRELUDE, l);
    var x1 := Then(Rise(l, [2, 2]), Rise(l, PRELUDE));
    var x2 := Then(b, x1);
    var x3 := Then(Rise(l, [1, 1]), x2);
    Joins(g.fns, code, Rise(l, [2, 2]), Rise(l, PRELUDE), q - 1, 1, 12, Up(l, 2), Up(l, 2), Up(l, 3));
    Joins(g.fns, code, b, x1, pc + n + 2, k, 13, Up(l, 1), Up(l, 2), Up(l, 3));
    Joins(g.fns, code, Rise(l, [1, 1]), x2, pc + 1 + n, 1, k + 13, Up(l, 1), Up(l, 1), Up(l, 3));
    Joins(g.fns, code, a, x3, pc + 1, n, k + 14, l, Up(l, 1), Up(l, 3));
    Joins(g.fns, code, Rise(l, [0, 0]), Then(a, x3), pc, 1, n + k + 14, l, l, Up(l, 3));
  }

  lemma DeclareEffect(name: Str)
    ensures Effect(DeclareLocal(name)) == Some((0, 0)) && Effect(InitUpvar(name)) == Some((0, 0))
  {
  }

  lemma ToNumAbove(fns: FnTable, code: seq<Slot>, pc: nat, l: Level)
    requires Is(code, pc, ToNum) && Proper(l)
    ensures Settles(fns, code, Rise(l, [2, 2]), pc, 1, Up(l, 2), Up(l, 2))
  {
    hide Proper, Settles, Effect;
    UpProper(l, 1);
    ToBoolEffect();
    Takes(fns, code, pc, ToNum, Up(l, 1), 1, 1);
    assert Up(Up(l, 1), 1) == Up(l, 2);
    assert Rise(Up(l, 1), [1, 1]) == Rise(l, [2, 2]);
  }

  lemma {:induction false} CountSettles(g: Scope, code: seq<Slot>, t: Stmt, pc: nat, l: Level)
    requires (t.Repeat? || t.ForLoop? || t.ForeachLoop?) && StmtAt(g, code, t, pc) && Proper(l)
    ensures Settles(g.fns, code, StmtLevels(t, l), pc, StmtLen(t), l, l)
    decreases StmtLen(t), 1
  {
    hide RepeatLevels, RangeLevels, RoundsLevels, ForeachLevels, RangeAt;
    hide StmtAt, StmtsAt, StmtLen, StmtsLen, StmtLevels, StmtsLevels, Settles, Proper, Then, Rise;
    hide ExprAt, ExprLen, ExprLevels, ExprsAt, ExprsLen, ExprsLevels, Effect, Is, Are;
    CountLevels(t, l);
    UpProper(l, 1);
    UpProper(l, 3);
    assert Up(l, 0) == l;
    var k := StmtsLen(t.body);
    if t.Repeat? {
      RepeatParts(g, code, t.times, t.body, pc);
      var n := ExprLen(t.times);
      ExprSettles(g, code, t.times, pc, l);
      StmtsSettle(g, code, t.body, pc + n + 4, Up(l, 1));
      RepeatSettles(g.fns, code, StmtsLevels(t.body, Up(l, 1)), k, pc + n, l);
      Joins(g.fns, code, ExprLevels(t.times, l), RepeatLevels(StmtsLevels(t.body, Up(l, 1)), l), pc, n, k + 9, l,
            Up(l, 1), l);
    } else if t.ForLoop? {
      ForIs(g, code, t, pc);
      var n := ExprLen(t.start) + ExprLen(t.stop);
      RangeSettles(g, code, t, pc, l);
      StmtsSettle(g, code, t.body, pc + 15 + n + 6, Up(l, 3));
      RoundsSettle(g.fns, code, StmtsLevels(t.body, Up(l, 3)), k, pc + 15 + n, t.v.trans, l);
      Joins(g.fns, code, RangeLevels(ExprLevels(t.start, l), ExprLevels(t.stop, Up(l, 1)), l),
            RoundsLevels(StmtsLevels(t.body, Up(l, 3)), l), pc, n + 15, k + 18, l, Up(l, 3), l);
    } else {
      ForeachParts(g, code, t.v, t.items, t.body, pc);
      var n := ExprLen(t.items);
      var x := ForeachLevels(StmtsLevels(t.body, Up(l, 1)), l);
      DeclareEffect(t.v.name);
      GatherEffect(MakeList, 0);
      Takes(g.fns, code, pc, DeclareLocal(t.v.name), l, 0, 0);
      ExprSettles(g, code, t.items, pc + 1, l);
      Takes(g.fns, code, pc + 1 + n, Variadic(MakeList, Dynamic), l, 1, 1);
      StmtsSettle(g, code, t.body, pc + n + 5, Up(l, 1));
      ForeachSettles(g.fns, code, StmtsLevels(t.body, Up(l, 1)), k, pc + n + 2, t.v.trans, l);
      Joins(g.fns, code, Rise(l, [1, 1]), x, pc + 1 + n, 1, k + 6, Up(l, 1), Up(l, 1), l);
      Joins(g.fns, code, ExprLevels(t.items, l), Then(Rise(l, [1, 1]), x), pc + 1, n, k + 7, l, Up(l, 1), l);
      Joins(g.fns, code, Rise(l, [0, 0]), Then(ExprLevels(t.items, l), Then(Rise(l, [1, 1]), x)), pc, 1, n + k + 7, l,
            l, l);
    }
  }

  // ----- whole bodies -----

  lemma UpvarsSettle(fns: FnTable, code: seq<Slot>, names: seq<Str>, pc: nat)
    requires UpvarsAt(code, names, pc)
    ensures Settles(fns, code, Evenly(GROUND, |names|), pc, |names|, GROUND, GROUND)
  {
    hide Settles;
    var row := seq(|names|, i requires 0 <= i < |names| => InitUpvar(names[i]));
    var heights := seq(|names| + 1, i => 0);
    forall i | 0 <= i < |row| ensures Climbs(row[i], pc, heights, map[], i) {
      DeclareEffect(names[i]);
      Plain(row[i], pc, heights, map[], i);
    }
    Closed(fns, code, pc, row, heights, GROUND);
  }

  /** In a body, nothing ever leads outside it, and every instruction finds what it takes. */
  lemma BodySteady(g: Scope, code: seq<Slot>, upvars: seq<Str>, body: seq<Stmt>, pc: nat)
    requires BodyAt(g, code, upvars, body, pc)
    ensures |BodyLevels(upvars, body)| == BodyLen(upvars, body)
    ensures Grounds(g.fns, code, BodyLevels(upvars, body), pc)
  {
    hide StmtsAt, StmtsLevels, StmtsLen, Then, Rise, Evenly, Settles, Proper, Effect, Cells, Are, Flows;
    var n, k := |upvars|, StmtsLen(body);
    var end := pc + n + k;
    BodyEnds(g, code, upvars, body, pc);
    assert Proper(GROUND) by {
      GroundProper();
    }
    assert Up(GROUND, 0) == GROUND;
    UpvarsSettle(g.fns, code, upvars, pc);
    StmtsSettle(g, code, body, pc + n, GROUND);
    PushEffect(TxtLit([]));
    Takes(g.fns, code, end, PushString([]), GROUND, 0, 1);
    var x := Then(StmtsLevels(body, GROUND), Rise(GROUND, [0, 1]));
    Joins(g.fns, code, StmtsLevels(body, GROUND), Rise(GROUND, [0, 1]), pc + n, k, 1, GROUND, GROUND, Up(GROUND, 1));
    Joins(g.fns, code, Evenly(GROUND, n), x, pc, n, k + 1, GROUND, GROUND, Up(GROUND, 1));
    BodyLast(g.fns, code, BodyLevels(upvars, body), pc, n + k + 1);
  }

  lemma GroundProper()
    ensures Proper(GROUND)
  {
  }

  lemma BodyEnds(g: Scope, code: seq<Slot>, upvars: seq<Str>, body: seq<Stmt>, pc: nat)
    requires BodyAt(g, code, upvars, body, pc)
    ensures Is(code, pc + |upvars| + StmtsLen(body), PushString([]))
            && Is(code, pc + |upvars| + StmtsLen(body) + 1, Return)
  {
    hide StmtsAt, StmtsLen;
    AreIs(code, pc + |upvars| + StmtsLen(body), [PushString([]), Return], 0);
    AreIs(code, pc + |upvars| + StmtsLen(body), [PushString([]), Return], 1);
  }

  /** Control starts on the ground, and never leaves these places. */
  ghost predicate Grounds(fns: FnTable, code: seq<Slot>, ls: seq<Level>, pc: int) {
    && ls != [] && ls[0] == GROUND && (forall i :: 0 <= i < |ls| ==> Proper(ls[i]))
    && forall q :: pc <= q < pc + |ls| ==> Stays(fns, code, ls, pc, q, Cells(ls, pc))
  }

  lemma BodyLast(fns: FnTable, code: seq<Slot>, ls: seq<Level>, pc: nat, n: nat)
    requires Settles(fns, code, ls, pc, n, GROUND, Up(GROUND, 1)) && Is(code, pc + n, Return)
    ensures |ls| == n + 1 && Grounds(fns, code, ls, pc)
  {
    hide Proper, Cells, Effect;
    assert Stays(fns, code, ls, pc, pc + n, Cells(ls, pc));
  }
}
