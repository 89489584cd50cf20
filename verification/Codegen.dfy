/** What code each construct compiles to: which instruction stands at which offset. */
module Codegen {
  import opened Common
  import opened Bytecode
  import opened Values
  import opened Machine
  import opened Tokens
  import opened Ast
  import opened Source

  /** One position of the code being built: an instruction, a call to a custom block or a closure that
      still has to be linked, or a position to be patched. */
  datatype Slot =
    | Pending
    | Ins(ins: Instruction)
    | CallHole(name: Str, ent: Option<nat>)
    | ClosureHole(params: seq<Str>, captures: seq<Str>, body: seq<Stmt>, ent: Option<nat>)

  /** The custom blocks, and the entity whose code is being compiled. */
  datatype Scope = Scope(fns: FnTable, ent: Option<nat>)

  predicate Is(code: seq<Slot>, pc: int, ins: Instruction) {
    0 <= pc < |code| && code[pc] == Ins(ins)
  }

  /** What linking fills in stands at `pc`. */
  predicate Hole(code: seq<Slot>, pc: int, slot: Slot) {
    0 <= pc < |code| && code[pc] == slot
  }

  /** A variadic operator over that many operands. */
  function Gathering<T>(vop: VariadicOp, items: seq<T>): Instruction {
    Variadic(vop, Fixed(|items|))
  }

  /** The call of a closure with that many arguments. */
  function Calling<T>(args: seq<T>): Instruction {
    CallClosure(false, |args|)
  }

  /** Several instructions in a row. */
  predicate Are(code: seq<Slot>, pc: int, ins: seq<Instruction>) {
    0 <= pc && pc + |ins| <= |code| && forall i :: 0 <= i < |ins| ==> code[pc + i] == Ins(ins[i])
  }

  lemma AreIs(code: seq<Slot>, pc: nat, ins: seq<Instruction>, i: nat)
    requires Are(code, pc, ins) && i < |ins|
    ensures Is(code, pc + i, ins[i])
  {
  }

  predicate LitAt(code: seq<Slot>, v: Lit, pc: int)
    decreases v
  {
    match v
    case NumLit(bits) => Is(code, pc, PushNumber(bits))
    case TxtLit(text) => Is(code, pc, PushString(text))
    case BoolLit(b) => Is(code, pc, PushBool(b))
    case ListLit(items) => LitsAt(code, items, pc) && Is(code, pc + LitsLen(items), Variadic(MakeList, Fixed(|items|)))
  }

  predicate LitsAt(code: seq<Slot>, vs: seq<Lit>, pc: int)
    decreases vs
  {
    vs == [] || (LitAt(code, vs[0], pc) && LitsAt(code, vs[1..], pc + LitLen(vs[0])))
  }

  predicate UpvarsAt(code: seq<Slot>, names: seq<Str>, pc: int) {
    0 <= pc && pc + |names| <= |code| && forall i :: 0 <= i < |names| ==> code[pc + i] == Ins(InitUpvar(names[i]))
  }

  predicate DeclaresAt(code: seq<Slot>, names: seq<Str>, pc: int) {
    0 <= pc && pc + |names| <= |code| && forall i :: 0 <= i < |names| ==> code[pc + i] == Ins(DeclareLocal(names[i]))
  }

  /** A call to a custom block that exists and takes that many arguments. */
  predicate Callable(g: Scope, name: Str, args: int) {
    var fn := Resolve(g.fns, g.ent, name);
    fn.Some? && |fn.value.params| == args && NulFree(fn.value.params)
  }

  // ----- fixed stretches, by where they (or what they jump to) stand -----

  function MapCode(q: nat): seq<Instruction> {
    [Variadic(MakeList, Dynamic), Variadic(MakeList, Fixed(0)),
     DupeValue(2), DupeValue(2), ListPopFirstOrElse(q + 10), CallClosure(false, 1),
     DupeValue(1), ListInsertLast, Yield, Jump(q + 2),
     SwapValues(1, 3), PopValue, PopValue, PopValue]
  }

  function KeepCode(q: nat): seq<Instruction> {
    [Variadic(MakeList, Dynamic), Variadic(MakeList, Fixed(0)),
     DupeValue(1), ListPopFirstOrElse(q + 14), DupeValue(3), DupeValue(1), CallClosure(false, 1),
     ConditionalJump(q + 11, false), DupeValue(1), ListInsertLast, Jump(q + 12),
     PopValue, Yield, Jump(q + 2),
     SwapValues(0, 2), PopValue, PopValue]
  }

  function FindCode(q: nat): seq<Instruction> {
    [Variadic(MakeList, Dynamic),
     DupeValue(0), ListPopFirstOrElse(q + 10), DupeValue(2), DupeValue(1), CallClosure(false, 1),
     ConditionalJump(q + 11, true), PopValue, Yield, Jump(q + 1),
     PushString([]), SwapValues(0, 2), PopValue, PopValue]
  }

  function FoldCode(q: nat): seq<Instruction> {
    [DupeValue(1), ListPopFirstOrElse(q + 11),
     DupeValue(1), DupeValue(3), ListPopFirstOrElse(q + 9), SwapValues(1, 2), CallClosure(false, 2),
     Yield, Jump(q + 2),
     PopValue, Jump(q + 12),
     PushInt(0), SwapValues(0, 2), PopValue, PopValue]
  }

  function ShortCode(aft: nat, decides: bool): seq<Instruction> {
    [DupeValue(0), ConditionalJump(aft, decides), PopValue]
  }

  function RepeatHead(tail: nat): seq<Instruction> {
    [DupeValue(0), PushInt(0), Cmp(Greater), ConditionalJump(tail + 4, false)]
  }

  function RepeatTail(top: nat): seq<Instruction> {
    [PushInt(1), Binary(Sub), Yield, Jump(top), PopValue]
  }

  function ForPrelude(q: nat): seq<Instruction> {
    [DupeValue(1), DupeValue(1), Cmp(Greater), ConditionalJump(q + 6, true),
     PushInt(1), Jump(q + 7), PushInt(-1),
     SwapValues(0, 2), SwapValues(0, 1), DupeValue(1), Binary(Sub), Unary(Abs)]
  }

  function ForHead(tail: nat, trans: Str): seq<Instruction> {
    [DupeValue(0), PushInt(0), Cmp(Less), ConditionalJump(tail + 9, true), DupeValue(1), Assign(trans)]
  }

  function ForTail(top: nat): seq<Instruction> {
    [PushInt(1), Binary(Sub), DupeValue(1), DupeValue(3), Binary(Add), SwapValues(0, 2), PopValue, Yield, Jump(top),
     PopValue, PopValue, PopValue]
  }

  function ForeachHead(tail: nat, trans: Str): seq<Instruction> {
    [DupeValue(0), ListPopFirstOrElse(tail + 2), Assign(trans)]
  }

  function ForeachTail(top: nat): seq<Instruction> {
    [Yield, Jump(top), PopValue]
  }

  predicate ExprAt(g: Scope, code: seq<Slot>, e: Expr, pc: int)
    decreases ExprLen(e), 0
  {
    || (e.Literal? && 0 <= pc && LitAt(code, e.v, pc))
    || (e.Variable? && Is(code, pc, PushVariable(e.name)))
    || (e.Simple? && 0 <= pc
        && Arity(Lower(e.op)) == Some(|e.args|) && ExprsAt(g, code, e.args, pc)
        && Is(code, pc + ExprsLen(e.args), Lower(e.op)))
    || (e.ListOf? && 0 <= pc
        && ExprsAt(g, code, e.items, pc) && Is(code, pc + ExprsLen(e.items), Variadic(MakeList, Fixed(|e.items|))))
    || (e.Reduce? && 0 <= pc && !e.vop.StrCat?
        && if e.src.ListOf? then
             && ExprsAt(g, code, e.src.items, pc)
             && Is(code, pc + ExprsLen(e.src.items), Variadic(e.vop, Fixed(|e.src.items|)))
           else if Written(e.src) then
             && LitsAt(code, e.src.v.items, pc)
             && Is(code, pc + LitsLen(e.src.v.items), Variadic(e.vop, Fixed(|e.src.v.items|)))
           else ExprAt(g, code, e.src, pc) && Is(code, pc + ExprLen(e.src), Variadic(e.vop, Dynamic)))
    || (e.Conditional? && 0 <= pc
        && var test := pc + ExprLen(e.cond);
        var jump := test + 1 + ExprLen(e.then_);
        var aft := jump + 1 + ExprLen(e.else_);
        && ExprAt(g, code, e.cond, pc) && Is(code, test, ConditionalJump(jump + 1, false))
        && ExprAt(g, code, e.then_, test + 1) && Is(code, jump, Jump(aft))
        && ExprAt(g, code, e.else_, jump + 1))
    || (e.Or? && ShortAt(g, code, e.left, e.right, true, pc))
    || (e.And? && ShortAt(g, code, e.left, e.right, false, pc))
    || (e.CallFn? && 0 <= pc
        && var a := pc + |e.upvars|;
        && DeclaresAt(code, e.upvars, pc) && ExprsAt(g, code, e.args, a)
        && Callable(g, e.function_, |e.args|) && Hole(code, a + ExprsLen(e.args), CallHole(e.function_, g.ent)))
    || (e.CallValue? && 0 <= pc
        && var a := pc + ExprLen(e.closure);
        && ExprAt(g, code, e.closure, pc) && ExprsAt(g, code, e.args, a)
        && Is(code, a + ExprsLen(e.args), CallClosure(false, |e.args|)))
    || (e.Lambda? && NulFree(e.params + e.captures)
        && Hole(code, pc, ClosureHole(e.params, e.captures, e.body, g.ent)))
    || (e.Map? && 0 <= pc
        && var a := pc + ExprLen(e.f);
        var q := a + ExprLen(e.list);
        ExprAt(g, code, e.f, pc) && ExprAt(g, code, e.list, a) && Are(code, q, MapCode(q)))
    || (e.Keep? && 0 <= pc
        && var a := pc + ExprLen(e.f);
        var q := a + ExprLen(e.list);
        ExprAt(g, code, e.f, pc) && ExprAt(g, code, e.list, a) && Are(code, q, KeepCode(q)))
    || (e.FindFirst? && 0 <= pc
        && var a := pc + ExprLen(e.f);
        var q := a + ExprLen(e.list);
        ExprAt(g, code, e.f, pc) && ExprAt(g, code, e.list, a) && Are(code, q, FindCode(q)))
    || (e.FoldWith? && 0 <= pc
        && var a := pc + ExprLen(e.list);
        var q := a + 1 + ExprLen(e.f);
        && ExprAt(g, code, e.list, pc) && Is(code, a, Variadic(MakeList, Dynamic)) && ExprAt(g, code, e.f, a + 1)
        && Are(code, q, FoldCode(q)))
  }

  predicate ShortAt(g: Scope, code: seq<Slot>, left: Expr, right: Expr, decides: bool, pc: int)
    decreases ExprLen(left) + ExprLen(right), 1
  {
    var a := pc + ExprLen(left);
    var aft := a + 3 + ExprLen(right);
    && 0 <= pc
    && ExprAt(g, code, left, pc)
    && Are(code, a, ShortCode(aft, decides))
    && ExprAt(g, code, right, a + 3) && Is(code, aft, ToBool)
  }

  predicate ExprsAt(g: Scope, code: seq<Slot>, es: seq<Expr>, pc: int)
    decreases ExprsLen(es), |es| + 1
  {
    es == [] || (ExprAt(g, code, es[0], pc) && ExprsAt(g, code, es[1..], pc + ExprLen(es[0])))
  }

  predicate StmtAt(g: Scope, code: seq<Slot>, s: Stmt, pc: int)
    decreases StmtLen(s), 0
  {
    || (s.SetVar? && 0 <= pc && ExprAt(g, code, s.value, pc) && Is(code, pc + ExprLen(s.value), Assign(s.name)))
    || (s.ChangeVar? && 0 <= pc
        && ExprAt(g, code, s.value, pc) && Is(code, pc + ExprLen(s.value), BinaryOpAssign(s.name, Add)))
    || (s.DeclareLocals? && DeclaresAt(code, s.names, pc))
    || (s.Do? && 0 <= pc
        && Arity(LowerDo(s.op)) == Some(|s.args|) && ExprsAt(g, code, s.args, pc)
        && Is(code, pc + ExprsLen(s.args), LowerDo(s.op)))
    || (s.ReturnValue? && 0 <= pc && ExprAt(g, code, s.value, pc) && Is(code, pc + ExprLen(s.value), Return))
    || (s.Warp? && 0 <= pc
        && Is(code, pc, WarpStart) && StmtsAt(g, code, s.body, pc + 1) && Is(code, pc + 1 + StmtsLen(s.body), WarpStop))
    || (s.InfLoop? && 0 <= pc
        && StmtsAt(g, code, s.body, pc) && Are(code, pc + StmtsLen(s.body), [Yield, Jump(pc)]))
    || (s.UntilLoop? && 0 <= pc
        && var a := pc + ExprLen(s.cond);
        var b := a + 1 + StmtsLen(s.body);
        && ExprAt(g, code, s.cond, pc) && Is(code, a, ConditionalJump(b + 2, true))
        && StmtsAt(g, code, s.body, a + 1) && Are(code, b, [Yield, Jump(pc)]))
    || (s.Repeat? && 0 <= pc
        && var a := pc + ExprLen(s.times);
        var b := a + 4 + StmtsLen(s.body);
        && ExprAt(g, code, s.times, pc) && Are(code, a, RepeatHead(b))
        && StmtsAt(g, code, s.body, a + 4) && Are(code, b, RepeatTail(a)))
    || (s.ForLoop? && ForAt(g, code, s.v, s.start, s.stop, s.body, pc))
    || (s.ForeachLoop? && 0 <= pc
        && var a := pc + 1 + ExprLen(s.items);
        var top := a + 1;
        var b := top + 3 + StmtsLen(s.body);
        && Is(code, pc, DeclareLocal(s.v.name))
        && ExprAt(g, code, s.items, pc + 1) && Is(code, a, Variadic(MakeList, Dynamic))
        && Are(code, top, ForeachHead(b, s.v.trans))
        && StmtsAt(g, code, s.body, top + 3)
        && Are(code, b, ForeachTail(top)))
    || (s.If? && 0 <= pc
        && var a := pc + ExprLen(s.cond);
        && ExprAt(g, code, s.cond, pc) && Is(code, a, ConditionalJump(a + 1 + StmtsLen(s.then_), false))
        && StmtsAt(g, code, s.then_, a + 1))
    || (s.IfElse? && 0 <= pc
        && var a := pc + ExprLen(s.cond);
        var b := a + 1 + StmtsLen(s.then_);
        && ExprAt(g, code, s.cond, pc) && Is(code, a, ConditionalJump(b + 1, false))
        && StmtsAt(g, code, s.then_, a + 1) && Is(code, b, Jump(b + 1 + StmtsLen(s.else_)))
        && StmtsAt(g, code, s.else_, b + 1))
    || (s.TryCatch? && 0 <= pc
        && var a := pc + 1 + StmtsLen(s.body);
        && Is(code, pc, PushHandler(a + 2, s.name))
        && StmtsAt(g, code, s.body, pc + 1)
        && Are(code, a, [PopHandler, Jump(a + 3 + StmtsLen(s.handler)), PopHandler])
        && StmtsAt(g, code, s.handler, a + 3))
    || (s.RunFn? && 0 <= pc
        && var a := pc + |s.upvars|;
        var hole := a + ExprsLen(s.args);
        && DeclaresAt(code, s.upvars, pc) && ExprsAt(g, code, s.args, a)
        && Callable(g, s.function_, |s.args|) && Hole(code, hole, CallHole(s.function_, g.ent))
        && Is(code, hole + 1, PopValue))
    || (s.RunValue? && 0 <= pc
        && var a := pc + ExprLen(s.closure);
        && ExprAt(g, code, s.closure, pc) && ExprsAt(g, code, s.args, a)
        && Are(code, a + ExprsLen(s.args), [CallClosure(false, |s.args|), PopValue]))
  }

  /** A counting loop: the step, the current value and the remaining distance are kept on the stack. */
  predicate ForAt(g: Scope, code: seq<Slot>, v: Var, start: Expr, stop: Expr, body: seq<Stmt>, pc: int)
    decreases ExprLen(start) + ExprLen(stop) + StmtsLen(body), 1
  {
    && RangeAt(g, code, v, start, stop, pc)
    && RoundsAt(g, code, v.trans, body, pc + 15 + ExprLen(start) + ExprLen(stop))
  }

  predicate RangeAt(g: Scope, code: seq<Slot>, v: Var, start: Expr, stop: Expr, pc: int)
    decreases ExprLen(start) + ExprLen(stop), 0
  {
    var a := pc + 1 + ExprLen(start);
    var b := a + 1 + ExprLen(stop);
    && 0 <= pc
    && Is(code, pc, DeclareLocal(v.name))
    && ExprAt(g, code, start, pc + 1) && Is(code, a, ToNum)
    && ExprAt(g, code, stop, a + 1) && Is(code, b, ToNum)
    && Are(code, b + 1, ForPrelude(b + 1))
  }

  predicate RoundsAt(g: Scope, code: seq<Slot>, trans: Str, body: seq<Stmt>, top: int)
    decreases StmtsLen(body), |body| + 2
  {
    var d := top + 6 + StmtsLen(body);
    0 <= top && Are(code, top, ForHead(d, trans)) && StmtsAt(g, code, body, top + 6) && Are(code, d, ForTail(top))
  }

  predicate StmtsAt(g: Scope, code: seq<Slot>, ss: seq<Stmt>, pc: int)
    decreases StmtsLen(ss), |ss| + 1
  {
    ss == [] || (StmtAt(g, code, ss[0], pc) && StmtsAt(g, code, ss[1..], pc + StmtLen(ss[0])))
  }

  /** A whole body: its upvars, its statements, and the report of an empty text if it falls off the end. */
  predicate BodyAt(g: Scope, code: seq<Slot>, upvars: seq<Str>, body: seq<Stmt>, pc: int) {
    var a := pc + |upvars|;
    && UpvarsAt(code, upvars, pc) && StmtsAt(g, code, body, a)
    && Are(code, a + StmtsLen(body), [PushString([]), Return])
  }

  function BodyLen(upvars: seq<Str>, body: seq<Stmt>): nat {
    |upvars| + StmtsLen(body) + 2
  }

  // ----- the parts of the longer layouts -----

  lemma HigherLen(e: Expr)
    ensures match e
            case Map(f, list) => ExprLen(e) == ExprLen(f) + ExprLen(list) + 14
            case Keep(f, list) => ExprLen(e) == ExprLen(f) + ExprLen(list) + 17
            case FindFirst(f, list) => ExprLen(e) == ExprLen(f) + ExprLen(list) + 14
            case FoldWith(f, list) => ExprLen(e) == ExprLen(f) + ExprLen(list) + 16
            case _ => true
  {
    hide ExprsLen, LitLen, LitsLen;
  }

  lemma MapParts(g: Scope, code: seq<Slot>, f: Expr, list: Expr, pc: nat)
    ensures var q := pc + ExprLen(f) + ExprLen(list);
            ExprAt(g, code, Map(f, list), pc)
            <==> ExprAt(g, code, f, pc) && ExprAt(g, code, list, pc + ExprLen(f)) && Are(code, q, MapCode(q))
    ensures ExprLen(Map(f, list)) == ExprLen(f) + ExprLen(list) + 14
  {
    hide Are, Is, LitAt, ExprsAt, ShortAt, ExprLen, MapCode, KeepCode, FindCode, FoldCode, Callable, DeclaresAt;
    HigherLen(Map(f, list));
  }

  lemma KeepParts(g: Scope, code: seq<Slot>, f: Expr, list: Expr, pc: nat)
    ensures var q := pc + ExprLen(f) + ExprLen(list);
            ExprAt(g, code, Keep(f, list), pc)
            <==> ExprAt(g, code, f, pc) && ExprAt(g, code, list, pc + ExprLen(f)) && Are(code, q, KeepCode(q))
    ensures ExprLen(Keep(f, list)) == ExprLen(f) + ExprLen(list) + 17
  {
    hide Are, Is, LitAt, ExprsAt, ShortAt, ExprLen, MapCode, KeepCode, FindCode, FoldCode, Callable, DeclaresAt;
    HigherLen(Keep(f, list));
  }

  lemma FindParts(g: Scope, code: seq<Slot>, f: Expr, list: Expr, pc: nat)
    ensures var q := pc + ExprLen(f) + ExprLen(list);
            ExprAt(g, code, FindFirst(f, list), pc)
            <==> ExprAt(g, code, f, pc) && ExprAt(g, code, list, pc + ExprLen(f)) && Are(code, q, FindCode(q))
    ensures ExprLen(FindFirst(f, list)) == ExprLen(f) + ExprLen(list) + 14
  {
    hide Are, Is, LitAt, ExprsAt, ShortAt, ExprLen, MapCode, KeepCode, FindCode, FoldCode, Callable, DeclaresAt;
    HigherLen(FindFirst(f, list));
  }

  lemma FoldParts(g: Scope, code: seq<Slot>, f: Expr, list: Expr, pc: nat)
    ensures var a := pc + ExprLen(list);
            var q := a + 1 + ExprLen(f);
            ExprAt(g, code, FoldWith(f, list), pc)
            <==> ExprAt(g, code, list, pc) && Is(code, a, Variadic(MakeList, Dynamic)) && ExprAt(g, code, f, a + 1)
                 && Are(code, q, FoldCode(q))
    ensures ExprLen(FoldWith(f, list)) == ExprLen(f) + ExprLen(list) + 16
  {
    hide Are, Is, LitAt, ExprsAt, ShortAt, ExprLen, MapCode, KeepCode, FindCode, FoldCode, Callable, DeclaresAt;
    hide LitLen;
    HigherLen(FoldWith(f, list));
  }

  lemma ShortParts(g: Scope, code: seq<Slot>, left: Expr, right: Expr, decides: bool, pc: nat)
    ensures var a := pc + ExprLen(left);
            var aft := a + 3 + ExprLen(right);
            ShortAt(g, code, left, right, decides, pc)
            <==> ExprAt(g, code, left, pc) && Are(code, a, ShortCode(aft, decides)) && ExprAt(g, code, right, a + 3)
                 && Is(code, aft, ToBool)
  {
    hide Are, Is, ExprAt, ExprLen;
  }

  lemma SimpleParts(g: Scope, code: seq<Slot>, op: SimpleOp, args: seq<Expr>, pc: nat)
    ensures ExprAt(g, code, Simple(op, args), pc)
            <==> Arity(Lower(op)) == Some(|args|) && ExprsAt(g, code, args, pc)
                 && Is(code, pc + ExprsLen(args), Lower(op))
    ensures ExprLen(Simple(op, args)) == ExprsLen(args) + 1
  {
    hide Is, LitAt, ExprsAt, ShortAt, Arity;
  }

  lemma ConditionalLen(cond: Expr, then_: Expr, else_: Expr)
    ensures ExprLen(Conditional(cond, then_, else_)) == ExprLen(cond) + ExprLen(then_) + ExprLen(else_) + 2
  {
  }

  lemma ConditionalParts(g: Scope, code: seq<Slot>, cond: Expr, then_: Expr, else_: Expr, pc: nat)
    ensures var test := pc + ExprLen(cond);
            var jump := test + 1 + ExprLen(then_);
            ExprAt(g, code, Conditional(cond, then_, else_), pc)
            <==> && ExprAt(g, code, cond, pc) && Is(code, test, ConditionalJump(jump + 1, false))
                 && ExprAt(g, code, then_, test + 1) && Is(code, jump, Jump(jump + 1 + ExprLen(else_)))
                 && ExprAt(g, code, else_, jump + 1)
    ensures ExprLen(Conditional(cond, then_, else_)) == ExprLen(cond) + ExprLen(then_) + ExprLen(else_) + 2
  {
    hide Is, LitAt, ExprsAt, ShortAt, Are, Callable, ExprLen, DeclaresAt, LitLen;
    ConditionalLen(cond, then_, else_);
  }

  lemma CallFnParts(g: Scope, code: seq<Slot>, name: Str, args: seq<Expr>, upvars: seq<Str>, pc: nat)
    ensures var a := pc + |upvars|;
            var hole := a + ExprsLen(args);
            ExprAt(g, code, CallFn(name, args, upvars), pc)
            <==> && DeclaresAt(code, upvars, pc) && ExprsAt(g, code, args, a)
                 && Callable(g, name, |args|) && hole < |code| && code[hole] == CallHole(name, g.ent)
    ensures ExprLen(CallFn(name, args, upvars)) == |upvars| + ExprsLen(args) + 1
  {
    hide Is, LitAt, ExprsAt, ShortAt, Are, Callable, DeclaresAt;
  }

  lemma CallValueParts(g: Scope, code: seq<Slot>, f: Expr, args: seq<Expr>, pc: nat)
    ensures var a := pc + ExprLen(f);
            ExprAt(g, code, CallValue(f, args), pc)
            <==> ExprAt(g, code, f, pc) && ExprsAt(g, code, args, a)
                 && Is(code, a + ExprsLen(args), CallClosure(false, |args|))
    ensures ExprLen(CallValue(f, args)) == ExprLen(f) + ExprsLen(args) + 1
  {
    hide Is, LitAt, ExprsAt, ShortAt, Are, Callable;
  }

  lemma RepeatParts(g: Scope, code: seq<Slot>, times: Expr, body: seq<Stmt>, pc: nat)
    ensures var a := pc + ExprLen(times);
            var b := a + 4 + StmtsLen(body);
            StmtAt(g, code, Repeat(times, body), pc)
            <==> ExprAt(g, code, times, pc) && Are(code, a, RepeatHead(b)) && StmtsAt(g, code, body, a + 4)
                 && Are(code, b, RepeatTail(a))
    ensures StmtLen(Repeat(times, body)) == ExprLen(times) + StmtsLen(body) + 9
  {
    hide Are, Is, ExprAt, ExprsAt, StmtsAt, ForAt, ExprLen, StmtsLen, Callable, DeclaresAt;
  }

  lemma ForeachParts(g: Scope, code: seq<Slot>, v: Var, items: Expr, body: seq<Stmt>, pc: nat)
    ensures var a := pc + 1 + ExprLen(items);
            var b := a + 4 + StmtsLen(body);
            StmtAt(g, code, ForeachLoop(v, items, body), pc)
            <==> && Is(code, pc, DeclareLocal(v.name)) && ExprAt(g, code, items, pc + 1)
                 && Is(code, a, Variadic(MakeList, Dynamic))
                 && Are(code, a + 1, ForeachHead(b, v.trans)) && StmtsAt(g, code, body, a + 4)
                 && Are(code, b, ForeachTail(a + 1))
    ensures StmtLen(ForeachLoop(v, items, body)) == ExprLen(items) + StmtsLen(body) + 8
  {
    hide Are, Is, ExprAt, ExprsAt, StmtsAt, ForAt, ExprLen, StmtsLen, Callable, DeclaresAt;
  }

  lemma UntilParts(g: Scope, code: seq<Slot>, cond: Expr, body: seq<Stmt>, pc: nat)
    ensures var a := pc + ExprLen(cond);
            var b := a + 1 + StmtsLen(body);
            StmtAt(g, code, UntilLoop(cond, body), pc)
            <==> ExprAt(g, code, cond, pc) && Is(code, a, ConditionalJump(b + 2, true))
                 && StmtsAt(g, code, body, a + 1) && Are(code, b, [Yield, Jump(pc)])
    ensures StmtLen(UntilLoop(cond, body)) == ExprLen(cond) + StmtsLen(body) + 3
  {
    hide Are, Is, ExprAt, ExprsAt, StmtsAt, ForAt, ExprLen, StmtsLen, Callable, DeclaresAt;
  }

  lemma IfElseParts(g: Scope, code: seq<Slot>, cond: Expr, then_: seq<Stmt>, else_: seq<Stmt>, pc: nat)
    ensures var a := pc + ExprLen(cond);
            var b := a + 1 + StmtsLen(then_);
            StmtAt(g, code, IfElse(cond, then_, else_), pc)
            <==> && ExprAt(g, code, cond, pc) && Is(code, a, ConditionalJump(b + 1, false))
                 && StmtsAt(g, code, then_, a + 1)
                 && Is(code, b, Jump(b + 1 + StmtsLen(else_))) && StmtsAt(g, code, else_, b + 1)
    ensures StmtLen(IfElse(cond, then_, else_)) == ExprLen(cond) + StmtsLen(then_) + StmtsLen(else_) + 2
  {
    hide Are, Is, ExprAt, ExprsAt, StmtsAt, ForAt, ExprLen, StmtsLen, Callable, DeclaresAt;
  }

  lemma TryParts(g: Scope, code: seq<Slot>, body: seq<Stmt>, name: Str, handler: seq<Stmt>, pc: nat)
    ensures var a := pc + 1 + StmtsLen(body);
            StmtAt(g, code, TryCatch(body, name, handler), pc)
            <==> && Is(code, pc, PushHandler(a + 2, name)) && StmtsAt(g, code, body, pc + 1)
                 && Are(code, a, [PopHandler, Jump(a + 3 + StmtsLen(handler)), PopHandler])
                 && StmtsAt(g, code, handler, a + 3)
    ensures StmtLen(TryCatch(body, name, handler)) == StmtsLen(body) + StmtsLen(handler) + 4
  {
    hide Are, Is, ExprAt, ExprsAt, StmtsAt, ForAt, ExprLen, StmtsLen, Callable, DeclaresAt;
  }

  // ----- layout only depends on the code's own stretch -----

  ghost predicate Agree(code: seq<Slot>, code': seq<Slot>, pc: nat, n: nat) {
    pc + n <= |code| && pc + n <= |code'| && forall q :: pc <= q < pc + n ==> code[q] == code'[q]
  }

  lemma AgreeSlot(s: seq<Slot>, t: seq<Slot>, pc: nat, n: nat, p: nat)
    requires Agree(s, t, pc, n) && pc <= p < pc + n
    ensures p < |s| && p < |t| && s[p] == t[p]
  {
  }

  lemma AgreePart(s: seq<Slot>, t: seq<Slot>, pc: nat, n: nat, p: nat, k: nat)
    requires Agree(s, t, pc, n) && pc <= p && p + k <= pc + n
    ensures Agree(s, t, p, k)
  {
  }

  lemma OneIs(code: seq<Slot>, pc: nat, i: Instruction)
    requires pc < |code| && code[pc] == Ins(i)
    ensures Is(code, pc, i)
  {
  }

  lemma RangeParts(g: Scope, t: seq<Slot>, v: Var, start: Expr, stop: Expr, pc: nat, a: nat, b: nat)
    requires a == pc + 1 + ExprLen(start) && b == a + 1 + ExprLen(stop)
    requires Is(t, pc, DeclareLocal(v.name)) && ExprAt(g, t, start, pc + 1) && Is(t, a, ToNum)
    requires ExprAt(g, t, stop, a + 1) && Is(t, b, ToNum) && Are(t, b + 1, ForPrelude(b + 1))
    ensures RangeAt(g, t, v, start, stop, pc)
  {
    hide Are, Is, ExprAt, ExprLen;
  }
}
