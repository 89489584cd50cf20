/** What block programs mean, without instructions, stacks or jumps: an evaluator over the syntax
    tree. Loops and calls spend fuel, so that every evaluation ends; a program diverges if it runs out
    of every amount of fuel. */
module Source {
  import opened Common
  import opened Bytecode
  import opened Values
  import opened Elementwise
  import opened Machine
  import opened Ast

  /** A compiled-together piece of code: the entity it belongs to, and its statements. */
  datatype Block = Block(ent: Option<nat>, body: seq<Stmt>)

  datatype Fn = Fn(ent: Option<nat>, params: seq<Str>, upvars: seq<Str>, body: seq<Stmt>)

  /** Custom blocks by entity and name; those without an entity are global. */
  type FnTable = map<(Option<nat>, Str), Fn>

  datatype Prog = Prog(w: World, outer: Locals, fns: FnTable)

  /** What one activation changes. */
  datatype St = St(locals: Locals, heap: Heap, closures: seq<Clo<Block>>, turns: nat)

  /** What is fixed at a point of an activation: the caller's variables, the call depth, the number of
      enclosing warps, and the entity whose custom blocks are in scope. */
  datatype Ctx = Ctx(parent: Option<Locals>, depth: nat, warp: nat, ent: Option<nat>)

  datatype Out<T> = Done(v: T, st: St) | Raised(err: Error, st: St) | OutOfFuel
  {
    predicate IsFailure() { !Done? }

    function PropagateFailure<U>(): Out<U> {
      match this case Raised(e, s) => Raised(e, s) case _ => OutOfFuel
    }

    function Extract(): (T, St)
      requires !IsFailure()
    {
      (v, st)
    }
  }

  /** Entity-level blocks shadow global ones. */
  function ResolveKey(fns: FnTable, ent: Option<nat>, name: Str): (k: Option<(Option<nat>, Str)>)
    ensures k.Some? ==> k.value in fns
  {
    if ent.Some? && (ent, name) in fns then Some((ent, name))
    else if (None, name) in fns then Some((None, name))
    else None
  }

  function Resolve(fns: FnTable, ent: Option<nat>, name: Str): Option<Fn> {
    var k := ResolveKey(fns, ent, name);
    if k.Some? then Some(fns[k.value]) else None
  }

  /** Other processes may run here, unless in a warp. */
  function Turn(c: Ctx, st: St): St {
    st.(turns := st.turns + if c.warp == 0 then 1 else 0)
  }

  function DeclareIn(st: St, name: Str): St {
    if name in st.locals then st
    else
      var (l, h) := Define(st.locals, st.heap, name, Num(0.0));
      st.(locals := l, heap := h)
  }

  function DeclareAllIn(st: St, names: seq<Str>): St
    decreases |names|
  {
    if names == [] then st else DeclareAllIn(DeclareIn(st, names[0]), names[1..])
  }

  function Lift<T>(r: Result<T, Error>, st: St): Out<T> {
    if r.Ok? then Done(r.value, st) else Raised(r.error, st)
  }

  function SetVariable(p: Prog, st: St, name: Str, v: Value): Out<Option<Value>> {
    var c := Lookup(st.locals, p.outer, name);
    if c.None? then Raised(UndefinedVariable(name), st)
    else Done(None, st.(heap := st.heap.(cells := SetCell(st.heap.cells, c.value, v))))
  }

  function ChangeVariable(p: Prog, st: St, name: Str, v: Value): Out<Option<Value>> {
    var c := Lookup(st.locals, p.outer, name);
    if c.None? then Raised(UndefinedVariable(name), st)
    else
      var r := BinaryOn(p.w, Add, Cell(st.heap.cells, c.value), v, st.heap.lists);
      if r.Err? then Raised(r.error, st)
      else Done(None, st.(heap := Heap(SetCell(st.heap.cells, c.value, r.value.0), r.value.1)))
  }

  /** Applies an instruction to evaluated operands. */
  function ApplyPrim(p: Prog, ins: Instruction, args: seq<Value>, st: St): Out<seq<Value>> {
    var (r, s) :- Lift(Prim(p.w, ins, args, st.heap), st);
    Done(r.0, s.(heap := r.1))
  }

  function Single(o: Out<seq<Value>>): Out<Value> {
    var (vs, st) :- o;
    if |vs| == 1 then Done(vs[0], st) else Raised(HostError(0), st)
  }

  function Quiet(o: Out<seq<Value>>): Out<Option<Value>> {
    var (vs, st) :- o;
    if |vs| == 0 then Done(None, st) else Raised(HostError(0), st)
  }

  function EvalLit(p: Prog, v: Lit, st: St): Out<Value>
    decreases v
  {
    match v
    case NumLit(bits) => Single(ApplyPrim(p, PushNumber(bits), [], st))
    case TxtLit(text) => Done(Txt(text), st)
    case BoolLit(b) => Done(Bool(b), st)
    case ListLit(items) =>
      var (vs, s) :- EvalLits(p, items, st);
      Single(ApplyPrim(p, Variadic(MakeList, Fixed(|vs|)), vs, s))
  }

  function EvalLits(p: Prog, vs: seq<Lit>, st: St): (r: Out<seq<Value>>)
    ensures r.Done? ==> |r.v| == |vs|
    decreases vs
  {
    if vs == [] then Done([], st)
    else
      var (v, s) :- EvalLit(p, vs[0], st);
      var (rest, s') :- EvalLits(p, vs[1..], s);
      Done([v] + rest, s')
  }

  /** A private copy of a list, as loops over lists take. */
  function CopyList(p: Prog, v: Value, st: St): Out<Value> {
    Single(ApplyPrim(p, Variadic(MakeList, Dynamic), [v], st))
  }

  // ----- expressions -----

  function Eval(p: Prog, fuel: nat, c: Ctx, e: Expr, st: St): Out<Value>
    decreases fuel, ExprLen(e), 1
  {
    match e
    case Literal(v) => EvalLit(p, v, st)
    case Variable(name) =>
      var cell := Lookup(st.locals, p.outer, name);
      if cell.None? then Raised(UndefinedVariable(name), st) else Done(Cell(st.heap.cells, cell.value), st)
    case Simple(op, args) =>
      var (vs, s) :- EvalAll(p, fuel, c, args, st);
      Single(ApplyPrim(p, Lower(op), vs, s))
    case ListOf(items) => EvalReduce(p, MakeList, EvalAll(p, fuel, c, items, st))
    case Reduce(vop, src) =>
      if src.ListOf? then EvalReduce(p, vop, EvalAll(p, fuel, c, src.items, st))
      else if Written(src) then EvalReduce(p, vop, EvalLits(p, src.v.items, st))
      else EvalReduceDynamic(p, vop, Eval(p, fuel, c, src, st))
    case Conditional(cond, then_, else_) =>
      var (b, s) :- EvalTest(p, fuel, c, cond, st);
      Eval(p, fuel, c, if b then then_ else else_, s)
    case Or(left, right) => EvalShort(p, fuel, c, left, right, true, st)
    case And(left, right) => EvalShort(p, fuel, c, left, right, false, st)
    case CallFn(name, args, upvars) =>
      var (vs, s) :- EvalAll(p, fuel, c, args, DeclareAllIn(st, upvars));
      CallNamed(p, fuel, c, name, vs, s)
    case CallValue(f, args) =>
      var (fv, s) :- Eval(p, fuel, c, f, st);
      var (vs, s') :- EvalAll(p, fuel, c, args, s);
      CallClosureValue(p, fuel, c, fv, vs, s')
    case Lambda(params, captures, body) =>
      var caps := Capture(st.locals, p.outer, captures);
      if caps.Err? then Raised(caps.error, st)
      else Done(Closure(|st.closures|), st.(closures := st.closures + [Clo(Block(c.ent, body), params, caps.value)]))
    case _ => EvalHigher(p, fuel, c, e, st)
  }

  /** The blocks that apply a closure to the items of a list. */
  function EvalHigher(p: Prog, fuel: nat, c: Ctx, e: Expr, st: St): Out<Value>
    decreases fuel, ExprLen(e), 0
  {
    if e.Map? then
      var (pair, s) :- EvalWork(p, fuel, c, e.f, e.list, st);
      MapLoop(p, fuel, c, pair.0, pair.1, NewId(s), WithNew(s))
    else if e.Keep? then
      var (pair, s) :- EvalWork(p, fuel, c, e.f, e.list, st);
      KeepLoop(p, fuel, c, pair.0, pair.1, NewId(s), WithNew(s))
    else if e.FindFirst? then
      var (pair, s) :- EvalWork(p, fuel, c, e.f, e.list, st);
      FindLoop(p, fuel, c, pair.0, pair.1, s)
    else if e.FoldWith? then
      var (lv, s) :- Eval(p, fuel, c, e.list, st);
      var (work, s1) :- CopyList(p, lv, s);
      var (fv, s2) :- Eval(p, fuel, c, e.f, s1);
      var items := Items(s2.heap.lists, WorkId(work));
      if items == [] then Done(Num(0.0), s2)
      else FoldLoop(p, fuel, c, fv, WorkId(work), items[0], TakeFirst(s2, WorkId(work)))
    else Raised(HostError(0), st)
  }

  function WorkId(v: Value): nat {
    if v.List? then v.id else 0
  }

  function EvalAll(p: Prog, fuel: nat, c: Ctx, es: seq<Expr>, st: St): (r: Out<seq<Value>>)
    ensures r.Done? ==> |r.v| == |es|
    decreases fuel, ExprsLen(es), |es| + 1
  {
    if es == [] then Done([], st)
    else
      var (v, s) :- Eval(p, fuel, c, es[0], st);
      var (rest, s') :- EvalAll(p, fuel, c, es[1..], s);
      Done([v] + rest, s')
  }

  /** A condition: it must be a boolean. */
  function EvalTest(p: Prog, fuel: nat, c: Ctx, e: Expr, st: St): Out<bool>
    decreases fuel, ExprLen(e), 2
  {
    var (v, s) :- Eval(p, fuel, c, e, st);
    Lift(AsBool(v), s)
  }

  /** Short-circuit: the second operand is evaluated only if the first does not decide. */
  function EvalShort(p: Prog, fuel: nat, c: Ctx, left: Expr, right: Expr, decides: bool, st: St): Out<Value>
    decreases fuel, ExprLen(left) + ExprLen(right), 2
  {
    var (b, s) :- EvalTest(p, fuel, c, left, st);
    if b == decides then Done(Bool(b), s)
    else
      var (b', s') :- EvalTest(p, fuel, c, right, s);
      Done(Bool(b'), s')
  }

  function EvalReduce(p: Prog, vop: VariadicOp, items: Out<seq<Value>>): Out<Value> {
    var (vs, s) :- items;
    if vop.StrCat? then Raised(HostError(0), s) else Single(ApplyPrim(p, Variadic(vop, Fixed(|vs|)), vs, s))
  }

  function EvalReduceDynamic(p: Prog, vop: VariadicOp, src: Out<Value>): Out<Value> {
    var (v, s) :- src;
    if vop.StrCat? then Raised(HostError(0), s) else Single(ApplyPrim(p, Variadic(vop, Dynamic), [v], s))
  }

  /** The closure and the private copy of the list that a higher-order block works with. */
  function EvalWork(p: Prog, fuel: nat, c: Ctx, f: Expr, list: Expr, st: St): Out<(Value, nat)>
    decreases fuel, ExprLen(f) + ExprLen(list), 1
  {
    var (fv, s) :- Eval(p, fuel, c, f, st);
    var (lv, s1) :- Eval(p, fuel, c, list, s);
    var (work, s2) :- CopyList(p, lv, s1);
    Done((fv, WorkId(work)), s2)
  }

  /** Takes the first item off a work list. */
  function TakeFirst(st: St, work: nat): St {
    var items := Items(st.heap.lists, work);
    if items == [] then st else st.(heap := st.heap.(lists := SetItems(st.heap.lists, work, items[1..])))
  }

  /** The item that `TakeFirst` takes. */
  function FirstOf(items: seq<Value>): Value {
    if items == [] then Num(0.0) else items[0]
  }

  /** A new empty list, and the state that has it. */
  function NewId(st: St): nat {
    |st.heap.lists|
  }

  function WithNew(st: St): St {
    st.(heap := st.heap.(lists := st.heap.lists + [[]]))
  }

  function Append(st: St, list: nat, v: Value): St {
    st.(heap := st.heap.(lists := SetItems(st.heap.lists, list, Items(st.heap.lists, list) + [v])))
  }

  // ----- calls -----

  /** Runs a body in a fresh activation; falling off its end reports an empty text. */
  function RunBody(p: Prog, fuel: nat, c: Ctx, upvars: seq<Str>, body: seq<Stmt>, st: St): Out<Value>
    decreases fuel, StmtsLen(body), |body| + 2
  {
    var (_, s) :- LinkUpvars(p, c, upvars, st);
    var (r, s') :- ExecAll(p, fuel, c, body, s);
    Done(if r.Some? then r.value else Txt([]), s')
  }

  function LinkUpvars(p: Prog, c: Ctx, upvars: seq<Str>, st: St): Out<()>
    decreases |upvars|
  {
    if upvars == [] then Done((), st)
    else
      var r := InitUpvarCell(p.w, upvars[0], st.locals, p.outer, c.parent, st.heap);
      if r.Err? then Raised(r.error, st) else LinkUpvars(p, c, upvars[1..], st.(locals := r.value))
  }

  /** Back in the caller, whose variables are as it left them. */
  function Resume<T>(o: Out<T>, locals: Locals): Out<T> {
    match o
    case Done(v, s) => Done(v, s.(locals := locals))
    case Raised(err, s) => Raised(err, s.(locals := locals))
    case OutOfFuel => OutOfFuel
  }

  function Callee(c: Ctx, st: St, ent: Option<nat>): Ctx {
    Ctx(Some(st.locals), c.depth + 1, c.warp, ent)
  }

  function CallNamed(p: Prog, fuel: nat, c: Ctx, name: Str, args: seq<Value>, st: St): Out<Value>
    decreases fuel, 0, 0
  {
    var fn := Resolve(p.fns, c.ent, name);
    if fuel == 0 then OutOfFuel
    else if fn.None? || |fn.value.params| != |args| then Raised(HostError(0), st)
    else if c.depth >= p.w.maxCallDepth then Raised(CallDepthLimit(p.w.maxCallDepth), st)
    else
      var (l, h) := DefineAll(map[], st.heap, fn.value.params, args);
      Resume(RunBody(p, fuel - 1, Callee(c, st, fn.value.ent), fn.value.upvars, fn.value.body,
                     st.(locals := l, heap := h)), st.locals)
  }

  function CallClosureValue(p: Prog, fuel: nat, c: Ctx, f: Value, args: seq<Value>, st: St): Out<Value>
    decreases fuel, 0, 0
  {
    if fuel == 0 then OutOfFuel
    else if !f.Closure? || f.id >= |st.closures| then Raised(Conversion(TypeOf(f), ClosureT), st)
    else
      var k := st.closures[f.id];
      if |k.params| != |args| then Raised(ClosureArgCount(|k.params|, |args|), st)
      else
        var (l, h) := DefineAll(k.captures, st.heap, k.params, args);
        Resume(RunBody(p, fuel - 1, Callee(c, st, k.code.ent), [], k.code.body, st.(locals := l, heap := h)), st.locals)
  }

  // ----- higher-order blocks -----

  function MapLoop(p: Prog, fuel: nat, c: Ctx, f: Value, work: nat, out: nat, st: St): Out<Value>
    decreases fuel, 0, 1
  {
    var items := Items(st.heap.lists, work);
    if items == [] then Done(List(out), st)
    else
      var (v, s) :- CallClosureValue(p, fuel, c, f, [items[0]], TakeFirst(st, work));
      if fuel == 0 then OutOfFuel else MapLoop(p, fuel - 1, c, f, work, out, Turn(c, Append(s, out, v)))
  }

  function KeepLoop(p: Prog, fuel: nat, c: Ctx, f: Value, work: nat, out: nat, st: St): Out<Value>
    decreases fuel, 0, 1
  {
    var items := Items(st.heap.lists, work);
    if items == [] then Done(List(out), st)
    else
      var (v, s) :- CallClosureValue(p, fuel, c, f, [items[0]], TakeFirst(st, work));
      var (b, s') :- Lift(AsBool(v), s);
      if fuel == 0 then OutOfFuel
      else KeepLoop(p, fuel - 1, c, f, work, out, Turn(c, if b then Append(s', out, items[0]) else s'))
  }

  function FindLoop(p: Prog, fuel: nat, c: Ctx, f: Value, work: nat, st: St): Out<Value>
    decreases fuel, 0, 1
  {
    var items := Items(st.heap.lists, work);
    if items == [] then Done(Txt([]), st)
    else
      var (v, s) :- CallClosureValue(p, fuel, c, f, [items[0]], TakeFirst(st, work));
      var (b, s') :- Lift(AsBool(v), s);
      if b then Done(items[0], s')
      else if fuel == 0 then OutOfFuel
      else FindLoop(p, fuel - 1, c, f, work, Turn(c, s'))
  }

  function FoldLoop(p: Prog, fuel: nat, c: Ctx, f: Value, work: nat, acc: Value, st: St): Out<Value>
    decreases fuel, 0, 1
  {
    var items := Items(st.heap.lists, work);
    if items == [] then Done(acc, st)
    else
      var (v, s) :- CallClosureValue(p, fuel, c, f, [acc, items[0]], TakeFirst(st, work));
      if fuel == 0 then OutOfFuel else FoldLoop(p, fuel - 1, c, f, work, v, Turn(c, s))
  }

  // ----- statements; a result that is some value means the body has reported it -----

  function ExecAll(p: Prog, fuel: nat, c: Ctx, ss: seq<Stmt>, st: St): Out<Option<Value>>
    decreases fuel, StmtsLen(ss), |ss| + 1
  {
    if ss == [] then Done(None, st)
    else
      var (r, s) :- Exec1(p, fuel, c, ss[0], st);
      if r.Some? then Done(r, s) else ExecAll(p, fuel, c, ss[1..], s)
  }

  function Discard(o: Out<Value>): Out<Option<Value>> {
    var (_, s) :- o;
    Done(None, s)
  }

  function Exec1(p: Prog, fuel: nat, c: Ctx, s: Stmt, st: St): Out<Option<Value>>
    decreases fuel, StmtLen(s), 1
  {
    match s
    case SetVar(name, value) =>
      var (v, s1) :- Eval(p, fuel, c, value, st);
      SetVariable(p, s1, name, v)
    case ChangeVar(name, value) =>
      var (v, s1) :- Eval(p, fuel, c, value, st);
      ChangeVariable(p, s1, name, v)
    case DeclareLocals(names) => Done(None, DeclareAllIn(st, names))
    case Do(op, args) =>
      var (vs, s1) :- EvalAll(p, fuel, c, args, st);
      Quiet(ApplyPrim(p, LowerDo(op), vs, s1))
    case ReturnValue(value) =>
      var (v, s1) :- Eval(p, fuel, c, value, st);
      Done(Some(v), s1)
    case Warp(body) => ExecAll(p, fuel, c.(warp := c.warp + 1), body, st)
    case If(cond, then_) =>
      var (b, s1) :- EvalTest(p, fuel, c, cond, st);
      if b then ExecAll(p, fuel, c, then_, s1) else Done(None, s1)
    case IfElse(cond, then_, else_) =>
      var (b, s1) :- EvalTest(p, fuel, c, cond, st);
      ExecAll(p, fuel, c, if b then then_ else else_, s1)
    case TryCatch(body, name, handler) => (
      match ExecAll(p, fuel, c, body, st)
      case Raised(err, s1) => ExecAll(p, fuel, c, handler, Caught(p, s1, name, err))
      case o => o)
    case RunFn(name, args, upvars) =>
      var (vs, s1) :- EvalAll(p, fuel, c, args, DeclareAllIn(st, upvars));
      Discard(CallNamed(p, fuel, c, name, vs, s1))
    case RunValue(f, args) =>
      var (fv, s1) :- Eval(p, fuel, c, f, st);
      var (vs, s2) :- EvalAll(p, fuel, c, args, s1);
      Discard(CallClosureValue(p, fuel, c, fv, vs, s2))
    case _ => ExecLoop(p, fuel, c, s, st)
  }

  function ExecLoop(p: Prog, fuel: nat, c: Ctx, s: Stmt, st: St): Out<Option<Value>>
    decreases fuel, StmtLen(s), 0
  {
    if s.InfLoop? then RunForever(p, fuel, c, s.body, st)
    else if s.UntilLoop? then RunUntil(p, fuel, c, s.cond, s.body, st)
    else if s.Repeat? then
      var (v, s1) :- Eval(p, fuel, c, s.times, st);
      RunRepeat(p, fuel, c, v, s.body, s1)
    else if s.ForLoop? then
      var (a, s1) :- EvalNum(p, fuel, c, s.start, DeclareIn(st, s.v.name));
      var (b, s2) :- EvalNum(p, fuel, c, s.stop, s1);
      RunFor(p, fuel, c, s.v.trans, a, b, 0, s.body, s2)
    else if s.ForeachLoop? then
      var (lv, s1) :- Eval(p, fuel, c, s.items, DeclareIn(st, s.v.name));
      var (work, s2) :- CopyList(p, lv, s1);
      RunForeach(p, fuel, c, s.v.trans, WorkId(work), s.body, s2)
    else Raised(HostError(0), st)
  }

  /** The state an error handler starts in: its variable is bound to the message. */
  function Caught(p: Prog, st: St, name: Str, err: Error): St {
    var (l, h) := Define(st.locals, st.heap, name, Txt(Message(p.w, err)));
    st.(locals := l, heap := h)
  }

  function EvalNum(p: Prog, fuel: nat, c: Ctx, e: Expr, st: St): Out<real>
    decreases fuel, ExprLen(e), 2
  {
    var (v, s) :- Eval(p, fuel, c, e, st);
    Lift(AsNum(p.w, v), s)
  }

  function RunForever(p: Prog, fuel: nat, c: Ctx, body: seq<Stmt>, st: St): Out<Option<Value>>
    decreases fuel, StmtsLen(body), |body| + 2
  {
    var (r, s) :- ExecAll(p, fuel, c, body, st);
    if r.Some? then Done(r, s) else if fuel == 0 then OutOfFuel else RunForever(p, fuel - 1, c, body, Turn(c, s))
  }

  function RunUntil(p: Prog, fuel: nat, c: Ctx, cond: Expr, body: seq<Stmt>, st: St): Out<Option<Value>>
    decreases fuel, ExprLen(cond) + StmtsLen(body), |body| + 3
  {
    var (b, s) :- EvalTest(p, fuel, c, cond, st);
    if b then Done(None, s)
    else
      var (r, s') :- ExecAll(p, fuel, c, body, s);
      if r.Some? then Done(r, s') else if fuel == 0 then OutOfFuel
      else RunUntil(p, fuel - 1, c, cond, body, Turn(c, s'))
  }

  /** Counts a value down by one while it is above zero. */
  function RunRepeat(p: Prog, fuel: nat, c: Ctx, v: Value, body: seq<Stmt>, st: St): Out<Option<Value>>
    decreases fuel, StmtsLen(body), |body| + 2
  {
    var (more, s) :- Lift(Relates(p.w, st.heap.lists, Greater, v, Num(0.0)), st);
    if !more then Done(None, s)
    else
      var (r, s1) :- ExecAll(p, fuel, c, body, s);
      if r.Some? then Done(r, s1)
      else
        var (less, s2) :- Lift(BinaryOn(p.w, Sub, v, Num(1.0), s1.heap.lists), s1);
        if fuel == 0 then OutOfFuel
        else RunRepeat(p, fuel - 1, c, less.0, body, Turn(c, s2.(heap := s2.heap.(lists := less.1))))
  }

  function Distance(a: real, b: real): real {
    if a < b then b - a else a - b
  }

  /** The value of a counting loop's variable in round `k`. */
  function ForValue(a: real, b: real, k: nat): real {
    if a > b then a - k as real else a + k as real
  }

  /** Round `k` of counting from `a` towards `b` by ones; there is one for every `k` up to the distance. */
  function RunFor(p: Prog, fuel: nat, c: Ctx, name: Str, a: real, b: real, k: nat, body: seq<Stmt>,
                  st: St): Out<Option<Value>>
    decreases fuel, StmtsLen(body), |body| + 2
  {
    if k as real > Distance(a, b) then Done(None, st)
    else
      var (_, s) :- SetVariable(p, st, name, Num(ForValue(a, b, k)));
      var (r, s') :- ExecAll(p, fuel, c, body, s);
      if r.Some? then Done(r, s') else if fuel == 0 then OutOfFuel
      else RunFor(p, fuel - 1, c, name, a, b, k + 1, body, Turn(c, s'))
  }

  function RunForeach(p: Prog, fuel: nat, c: Ctx, name: Str, work: nat, body: seq<Stmt>, st: St): Out<Option<Value>>
    decreases fuel, StmtsLen(body), |body| + 2
  {
    var items := Items(st.heap.lists, work);
    if items == [] then Done(None, st)
    else
      var (_, s) :- SetVariable(p, TakeFirst(st, work), name, items[0]);
      var (r, s') :- ExecAll(p, fuel, c, body, s);
      if r.Some? then Done(r, s') else if fuel == 0 then OutOfFuel
      else RunForeach(p, fuel - 1, c, name, work, body, Turn(c, s'))
  }
}
