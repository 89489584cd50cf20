/** How linked code runs next to the evaluator: the states that correspond, and what each instruction
    does to them. */
module Simulation {
  import opened Common
  import opened Bytecode
  import opened Values
  import opened Elementwise
  import opened Machine
  import opened Tokens
  import opened Ast
  import opened Source
  import opened Codegen

  /** A linked program: its slots as compiled, the instructions they became, and where the bodies of
      custom blocks and closures start. */
  datatype Image = Image(p: Prog, slots: seq<Slot>, ins: seq<Instruction>,
                         fnEntry: map<(Option<nat>, Str), nat>, bodyEntry: map<nat, nat>)
  {
    function M(): Machine {
      Machine(p.w, Listing(ins), p.outer)
    }

    function G(c: Ctx): Scope {
      Scope(p.fns, c.ent)
    }
  }

  /** Every hole is filled with a transfer to where its body stands. */
  predicate FilledAt(I: Image, pos: int) {
    0 <= pos < |I.slots| == |I.ins| &&
    match I.slots[pos]
    case Pending => false
    case Ins(i) => I.ins[pos] == i
    case CallHole(name, ent) =>
      var k := ResolveKey(I.p.fns, ent, name);
      && k.Some? && k.value in I.fnEntry
      && I.ins[pos] == Call(I.fnEntry[k.value], LosslessJoin(I.p.fns[k.value].params))
    case ClosureHole(params, captures, body, ent) =>
      && pos in I.bodyEntry
      && I.ins[pos] == MakeClosure(I.bodyEntry[pos], |params|, LosslessJoin(params + captures))
      && BodyAt(Scope(I.p.fns, ent), I.slots, [], body, I.bodyEntry[pos])
  }

  ghost predicate Filled(I: Image) {
    && |I.slots| == |I.ins|
    && (forall pos {:trigger FilledAt(I, pos)} :: 0 <= pos < |I.slots| ==> FilledAt(I, pos))
    && (forall k {:trigger k in I.fnEntry} :: k in I.p.fns ==>
                      k in I.fnEntry && BodyAt(Scope(I.p.fns, I.p.fns[k].ent), I.slots, I.p.fns[k].upvars,
                                               I.p.fns[k].body, I.fnEntry[k]))
  }

  // ----- corresponding states -----

  /** The interpreter at `pos` of the activation of `base`, with the evaluator's state as its own. */
  function At(base: State, pos: int, values: seq<Value>, st: St, clo: seq<Clo<nat>>): State {
    base.(pos := if pos < 0 then 0 else pos, values := values, calls := WithLocals(base.calls, st.locals),
          heap := st.heap, closures := clo, turns := st.turns)
  }

  ghost predicate Fits(c: Ctx, base: State) {
    && base.calls != [] && |base.calls| == c.depth && base.warp == c.warp
    && c.parent == (if |base.calls| > 1 then Some(base.calls[|base.calls| - 2].locals) else None)
  }

  /** Closures correspond when they take and capture the same and the code is that of the body. */
  ghost predicate Tied(I: Image, clo: seq<Clo<nat>>, src: seq<Clo<Block>>) {
    && |clo| == |src|
    && forall i :: 0 <= i < |clo| ==>
                     && clo[i].params == src[i].params && clo[i].captures == src[i].captures
                     && BodyAt(Scope(I.p.fns, src[i].code.ent), I.slots, [], src[i].code.body, clo[i].code)
  }

  /** What a stretch of code achieves: it leaves values on the stack, or is about to report one. */
  datatype Goal = Leaves(vs: seq<Value>) | Reports(v: Value)

  function OneGoal(o: Out<Value>): Out<Goal> {
    match o case Done(v, s) => Done(Leaves([v]), s) case Raised(e, s) => Raised(e, s) case OutOfFuel => OutOfFuel
  }

  function BoolGoal(o: Out<bool>): Out<Goal> {
    match o case Done(b, s) => Done(Leaves([Bool(b)]), s) case Raised(e, s) => Raised(e, s) case OutOfFuel => OutOfFuel
  }

  function WorkGoal(o: Out<(Value, nat)>): Out<Goal> {
    match o case Done(p, s) => Done(Leaves([p.0, List(p.1)]), s) case Raised(e, s) => Raised(e, s)
    case OutOfFuel => OutOfFuel
  }

  function ManyGoal(o: Out<seq<Value>>): Out<Goal> {
    match o case Done(vs, s) => Done(Leaves(vs), s) case Raised(e, s) => Raised(e, s) case OutOfFuel => OutOfFuel
  }

  function StmtGoal(o: Out<Option<Value>>): Out<Goal> {
    match o
    case Done(r, s) => Done(if r.Some? then Reports(r.value) else Leaves([]), s)
    case Raised(e, s) => Raised(e, s)
    case OutOfFuel => OutOfFuel
  }

  function BodyGoal(o: Out<Value>): Out<Goal> {
    match o case Done(v, s) => Done(Reports(v), s) case Raised(e, s) => Raised(e, s) case OutOfFuel => OutOfFuel
  }

  /** The state a failed instruction leaves: the activation's own frame and everything below it are as
      the evaluator has them, and no handler has been lost or left behind. */
  ghost predicate Wreck(base: State, floor: seq<Value>, f: State, st: St, clo: seq<Clo<nat>>) {
    && base.calls != [] && |f.calls| >= |base.calls| && f.calls[..|base.calls|] == WithLocals(base.calls, st.locals)
    && floor <= f.values && f.handlers == base.handlers
    && f.heap == st.heap && f.closures == clo && f.turns == st.turns
  }

  /** About to execute a return of `v`. */
  ghost predicate Returning(I: Image, base: State, floor: seq<Value>, r: State, v: Value, st: St, clo: seq<Clo<nat>>) {
    && base.calls != [] && Is(I.slots, r.pos, Return)
    && r.calls == WithLocals(base.calls, st.locals)
    && |r.values| >= 1 && r.values[|r.values| - 1] == v && floor <= r.values[..|r.values| - 1]
    && base.handlers <= r.handlers
    && r.heap == st.heap && r.closures == clo && r.turns == st.turns
  }

  /** Running `n` steps from `s` meets an outcome of the evaluator: it lands on `next` with the values
      on top of `floor`, or is about to report, or fails; if the evaluator ran out of fuel, the
      interpreter runs for at least as many steps. */
  ghost predicate Meets(I: Image, base: State, s: State, floor: seq<Value>, next: int, n: int, clo: seq<Clo<nat>>,
                        fuel: int, o: Out<Goal>) {
    || (o.OutOfFuel? && base.calls != [] && Run(I.M(), s, fuel).Some?)
    || (o.Raised? && base.calls != []
        && var r := Run(I.M(), s, n);
        && r.Some? && StepImpl(I.M(), r.value).Failed? && StepImpl(I.M(), r.value).err == o.err
        && Wreck(base, floor, StepImpl(I.M(), r.value).s, o.st, clo) && Tied(I, clo, o.st.closures))
    || (o.Done? && base.calls != [] && Tied(I, clo, o.st.closures)
        && var r := Run(I.M(), s, n);
        match o.v
        case Leaves(vs) => r == Some(At(base, next, floor + vs, o.st, clo))
        case Reports(v) => r.Some? && Returning(I, base, floor, r.value, v, o.st, clo))
  }

  // ----- composition -----

  lemma {:induction false} RunAdd(m: Machine, s: State, a: nat, b: nat)
    requires Run(m, s, a).Some?
    ensures Run(m, s, a + b) == Run(m, Run(m, s, a).value, b)
    decreases a
  {
    hide Step;
    if a > 0 {
      RunAdd(m, Step(m, s).s, a - 1, b);
    }
  }

  lemma RunLess(m: Machine, s: State, a: nat, b: nat)
    requires Run(m, s, b).Some? && a <= b
    ensures Run(m, s, a).Some?
    decreases a
  {
    hide Step;
    if a > 0 {
      RunLess(m, Step(m, s).s, a - 1, b - 1);
    }
  }

  lemma RunTwo(m: Machine, s: State, a: nat, t: State, b: nat, u: State)
    requires Run(m, s, a) == Some(t) && Run(m, t, b) == Some(u)
    ensures Run(m, s, a + b) == Some(u)
  {
    hide *;
    RunAdd(m, s, a, b);
  }

  /** Steps in front of a stretch that meets an outcome. */
  lemma Chain(I: Image, base: State, s: State, a: nat, t: State, floor: seq<Value>, next: nat, b: nat,
              clo: seq<Clo<nat>>, fuel: nat, fuel': nat, o: Out<Goal>)
    requires Run(I.M(), s, a) == Some(t) && Meets(I, base, t, floor, next, b, clo, fuel', o)
    requires fuel <= a + fuel'
    ensures Meets(I, base, s, floor, next, a + b, clo, fuel, o)
  {
    hide Step, StepImpl, Wreck, Returning, Tied, At;
    if o.OutOfFuel? {
      RunAdd(I.M(), s, a, fuel');
      RunLess(I.M(), s, fuel, a + fuel');
    } else {
      RunAdd(I.M(), s, a, b);
    }
  }

  predicate Escapes(o: Out<Goal>) {
    match o case Done(Leaves(_), _) => false case _ => true
  }

  /** Failures and reports pass out of the constructs around them. */
  lemma Escape(I: Image, base: State, base': State, s: State, floor: seq<Value>, floor': seq<Value>, next: nat,
               next': nat, n: nat, clo: seq<Clo<nat>>, fuel: nat, o: Out<Goal>)
    requires Escapes(o) && Meets(I, base', s, floor', next', n, clo, fuel, o)
    requires floor <= floor' && base.calls == base'.calls
    requires base.handlers == base'.handlers || (base.handlers <= base'.handlers && !o.Raised?)
    ensures Meets(I, base, s, floor, next, n, clo, fuel, o)
  {
    hide BodyAt, Exec, Is, Step;
  }

  // ----- one instruction -----

  predicate Stands(I: Image, pos: nat, ins: Instruction) {
    pos < |I.ins| && I.ins[pos] == ins
  }

  /** Executing an instruction where it stands. */
  function Does(I: Image, s: State, ins: Instruction): Outcome {
    Exec(I.p.w, I.p.outer, ins, s.pos + 1, s)
  }

  function ExecCallAt(I: Image, s: State, ins: Instruction): Outcome {
    ExecCall(I.p.w, I.p.outer, ins, s.pos + 1, s)
  }

  lemma FilledIs(I: Image, pos: nat, ins: Instruction)
    requires Filled(I) && Is(I.slots, pos, ins)
    ensures Stands(I, pos, ins)
  {
    hide BodyAt;
    assert FilledAt(I, pos);
  }

  lemma GoesLinked(I: Image, s: State, ins: Instruction, t: State)
    requires Stands(I, s.pos, ins)
    requires Does(I, s, ins) == Went(t)
    ensures Run(I.M(), s, 1) == Some(t)
  {
    hide Exec, Unwind, Build;
    assert StepImpl(I.M(), s) == Went(t);
    assert Step(I.M(), s) == Went(t);
    assert Run(I.M(), t, 0) == Some(t);
  }

  lemma Goes(I: Image, s: State, ins: Instruction, t: State)
    requires Filled(I) && Is(I.slots, s.pos, ins)
    requires Does(I, s, ins) == Went(t)
    ensures Run(I.M(), s, 1) == Some(t)
  {
    hide *;
    FilledIs(I, s.pos, ins);
    GoesLinked(I, s, ins, t);
  }

  lemma FailsLinked(I: Image, base: State, s: State, floor: seq<Value>, next: nat, ins: Instruction, err: Error,
                    f: State, st: St, clo: seq<Clo<nat>>, fuel: nat)
    requires Stands(I, s.pos, ins)
    requires Does(I, s, ins) == Failed(err, f)
    requires Wreck(base, floor, f, st, clo) && Tied(I, clo, st.closures)
    ensures Meets(I, base, s, floor, next, 0, clo, fuel, Raised(err, st))
  {
    hide Exec, Unwind, Tied, Build, Returning, Step;
    assert Run(I.M(), s, 0) == Some(s);
    assert StepImpl(I.M(), s) == Failed(err, f);
  }

  lemma Fails(I: Image, base: State, s: State, floor: seq<Value>, next: nat, ins: Instruction, err: Error, f: State,
              st: St, clo: seq<Clo<nat>>, fuel: nat)
    requires Filled(I) && Is(I.slots, s.pos, ins)
    requires Does(I, s, ins) == Failed(err, f)
    requires Wreck(base, floor, f, st, clo) && Tied(I, clo, st.closures)
    ensures Meets(I, base, s, floor, next, 0, clo, fuel, Raised(err, st))
  {
    hide *;
    FilledIs(I, s.pos, ins);
    FailsLinked(I, base, s, floor, next, ins, err, f, st, clo, fuel);
  }

  lemma Lands(I: Image, base: State, s: State, floor: seq<Value>, vs: seq<Value>, next: nat, n: nat,
              clo: seq<Clo<nat>>, fuel: nat, st: St)
    requires base.calls != [] && Run(I.M(), s, n) == Some(At(base, next, floor + vs, st, clo))
             && Tied(I, clo, st.closures)
    ensures Meets(I, base, s, floor, next, n, clo, fuel, Done(Leaves(vs), st))
  {
    hide BodyAt, Returning, Step, StepImpl, Wreck;
  }

  lemma ExecIsVariable(I: Image, s: State, ins: Instruction)
    requires s.calls != []
    requires ins.PushVariable? || ins.DeclareLocal? || ins.InitUpvar? || ins.Assign? || ins.BinaryOpAssign?
    ensures Does(I, s, ins) == ExecVariable(I.p.w, I.p.outer, ins, s.pos + 1, s)
  {
    hide ExecCall, ExecStack, ExecJump, ExecVariable;
  }

  lemma ExecIsJump(I: Image, s: State, ins: Instruction)
    requires s.calls != []
    requires ins.Jump? || ins.ConditionalJump? || ins.ListPopFirstOrElse? || ins.Yield?
    ensures Does(I, s, ins) == ExecJump(ins, s.pos + 1, s)
  {
    hide ExecCall, ExecStack, ExecJump, ExecVariable;
  }

  /** An operator on its operands. */
  lemma PrimMeets(I: Image, base: State, pc: nat, floor: seq<Value>, ins: Instruction, args: seq<Value>, st: St,
                  clo: seq<Clo<nat>>, fuel: nat)
    returns (n: nat)
    requires Filled(I) && base.calls != [] && Tied(I, clo, st.closures)
    requires Is(I.slots, pc, ins) && Arity(ins) == Some(|args|)
    ensures Meets(I, base, At(base, pc, floor + args, st, clo), floor, pc + 1, n, clo, fuel,
                  ManyGoal(ApplyPrim(I.p, ins, args, st)))
  {
    hide Prim, Run, StepImpl, BodyAt, Meets, Filled, FilledAt;
    var s := At(base, pc, floor + args, st, clo);
    var k := |floor|;
    assert (floor + args)[k..] == args && (floor + args)[..k] == floor;
    var r := Prim(I.p.w, ins, args, st.heap);
    assert OnStack(I.p.w, ins, floor + args, st.heap)
           == Some(if r.Err? then Err(r.error) else Ok((floor + r.value.0, r.value.1)));
    if r.Ok? {
      n := 1;
      var st' := st.(heap := r.value.1);
      Goes(I, s, ins, At(base, pc + 1, floor + r.value.0, st', clo));
      Lands(I, base, s, floor, r.value.0, pc + 1, 1, clo, fuel, st');
    } else {
      n := 0;
      Fails(I, base, s, floor, pc + 1, ins, r.error, s.(values := floor), st, clo, fuel);
    }
  }

  lemma DupeGoes(I: Image, base: State, pc: nat, values: seq<Value>, top: Byte, st: St, clo: seq<Clo<nat>>)
    requires Filled(I) && base.calls != [] && top < |values| && Is(I.slots, pc, DupeValue(top))
    ensures Run(I.M(), At(base, pc, values, st, clo), 1)
            == Some(At(base, pc + 1, values + [Peek(values, top)], st, clo))
  {
    hide Run, BodyAt, Filled, FilledAt;
    Goes(I, At(base, pc, values, st, clo), DupeValue(top),
         At(base, pc + 1, values + [values[|values| - 1 - top]], st, clo));
  }

  function Swapped(values: seq<Value>, i: nat, j: nat): seq<Value> {
    if i < |values| && j < |values|
    then values[|values| - 1 - i := values[|values| - 1 - j]][|values| - 1 - j := values[|values| - 1 - i]] else values
  }

  /** The value below the top `i` ones. */
  function Peek(values: seq<Value>, i: nat): Value {
    if i < |values| then values[|values| - 1 - i] else Num(0.0)
  }

  lemma SwapGoes(I: Image, base: State, pc: nat, values: seq<Value>, i: Byte, j: Byte, st: St, clo: seq<Clo<nat>>)
    requires Filled(I) && base.calls != [] && i < |values| && j < |values|
             && Is(I.slots, pc, SwapValues(i, j))
    ensures Run(I.M(), At(base, pc, values, st, clo), 1) == Some(At(base, pc + 1, Swapped(values, i, j), st, clo))
  {
    hide Run, BodyAt, Filled, FilledAt;
    Goes(I, At(base, pc, values, st, clo), SwapValues(i, j), At(base, pc + 1, Swapped(values, i, j), st, clo));
  }

  /** An instruction that takes operands and cannot fail on them. */
  lemma PrimGoes(I: Image, base: State, pc: nat, floor: seq<Value>, ins: Instruction, args: seq<Value>,
                 out: seq<Value>, heap: Heap, st: St, clo: seq<Clo<nat>>)
    requires Filled(I) && base.calls != []
    requires Is(I.slots, pc, ins) && Arity(ins) == Some(|args|) && Prim(I.p.w, ins, args, st.heap) == Ok((out, heap))
    ensures Run(I.M(), At(base, pc, floor + args, st, clo), 1)
            == Some(At(base, pc + 1, floor + out, st.(heap := heap), clo))
  {
    hide Run, BodyAt, Prim, Filled, FilledAt;
    assert (floor + args)[|floor|..] == args && (floor + args)[..|floor|] == floor;
    Goes(I, At(base, pc, floor + args, st, clo), ins, At(base, pc + 1, floor + out, st.(heap := heap), clo));
  }

  lemma PopGoes(I: Image, base: State, pc: nat, floor: seq<Value>, v: Value, st: St, clo: seq<Clo<nat>>)
    requires Filled(I) && base.calls != [] && Is(I.slots, pc, PopValue)
    ensures Run(I.M(), At(base, pc, floor + [v], st, clo), 1) == Some(At(base, pc + 1, floor, st, clo))
  {
    hide Run, BodyAt, Filled, FilledAt, BinaryOn, Combine, OnList, Relates, UnaryOn;
    PrimGoes(I, base, pc, floor, PopValue, [v], [], st.heap, st, clo);
    assert floor + [] == floor;
  }

  lemma JumpGoes(I: Image, base: State, pc: nat, values: seq<Value>, to: nat, st: St, clo: seq<Clo<nat>>)
    requires Filled(I) && base.calls != [] && Is(I.slots, pc, Jump(to))
    ensures Run(I.M(), At(base, pc, values, st, clo), 1) == Some(At(base, to, values, st, clo))
  {
    hide Run, BodyAt, Filled, FilledAt, Does, Exec, ExecStack, ExecVariable, ExecCall;
    ExecIsJump(I, At(base, pc, values, st, clo), Jump(to));
    Goes(I, At(base, pc, values, st, clo), Jump(to), At(base, to, values, st, clo));
  }

  /** A conditional jump on a boolean. */
  lemma BranchGoes(I: Image, base: State, pc: nat, floor: seq<Value>, v: Value, to: nat, when_: bool, st: St,
                   clo: seq<Clo<nat>>)
    requires Filled(I) && base.calls != [] && Is(I.slots, pc, ConditionalJump(to, when_))
    ensures match AsBool(v)
            case Ok(b) => Run(I.M(), At(base, pc, floor + [v], st, clo), 1)
                          == Some(At(base, if b == when_ then to else pc + 1, floor, st, clo))
            case Err(_) => true
  {
    hide Run, BodyAt, AsBool, Filled, FilledAt, Does, Exec, ExecStack, ExecVariable, ExecCall;
    var values := floor + [v];
    assert values[..|values| - 1] == floor;
    ExecIsJump(I, At(base, pc, values, st, clo), ConditionalJump(to, when_));
    if AsBool(v).Ok? {
      Goes(I, At(base, pc, values, st, clo), ConditionalJump(to, when_),
           At(base, if AsBool(v).value == when_ then to else pc + 1, floor, st, clo));
    }
  }

  lemma BranchFails(I: Image, base: State, pc: nat, floor: seq<Value>, v: Value, to: nat, when_: bool, next: nat,
                    err: Error, st: St, clo: seq<Clo<nat>>, fuel: nat)
    requires Filled(I) && base.calls != [] && Is(I.slots, pc, ConditionalJump(to, when_)) && AsBool(v) == Err(err)
             && Tied(I, clo, st.closures)
    ensures Meets(I, base, At(base, pc, floor + [v], st, clo), floor, next, 0, clo, fuel, Raised(err, st))
  {
    hide Run, BodyAt, AsBool, Filled, FilledAt, Meets, Does, Exec, ExecStack, ExecVariable, ExecCall;
    var values := floor + [v];
    assert values[..|values| - 1] == floor;
    var s := At(base, pc, values, st, clo);
    ExecIsJump(I, s, ConditionalJump(to, when_));
    Fails(I, base, s, floor, next, ConditionalJump(to, when_), err, s.(values := floor), st, clo, fuel);
  }

  /** Taking the first item off a work list, or leaving the loop. */
  lemma PopFirstGoes(I: Image, base: State, pc: nat, floor: seq<Value>, work: nat, goto: nat, st: St,
                     clo: seq<Clo<nat>>)
    requires Filled(I) && base.calls != [] && Is(I.slots, pc, ListPopFirstOrElse(goto))
    ensures var items := Items(st.heap.lists, work);
            Run(I.M(), At(base, pc, floor + [List(work)], st, clo), 1)
            == Some(if items == [] then At(base, goto, floor, st, clo)
                    else At(base, pc + 1, floor + [FirstOf(items)], TakeFirst(st, work), clo))
  {
    hide Run, BodyAt, Items, SetItems, Filled, FilledAt, Does, Exec, ExecStack, ExecVariable, ExecCall;
    var values := floor + [List(work)];
    assert values[..|values| - 1] == floor;
    var items := Items(st.heap.lists, work);
    ExecIsJump(I, At(base, pc, values, st, clo), ListPopFirstOrElse(goto));
    Goes(I, At(base, pc, values, st, clo), ListPopFirstOrElse(goto),
         if items == [] then At(base, goto, floor, st, clo)
         else At(base, pc + 1, floor + [items[0]], TakeFirst(st, work), clo));
  }

  lemma YieldGoes(I: Image, base: State, pc: nat, values: seq<Value>, c: Ctx, st: St, clo: seq<Clo<nat>>)
    requires Filled(I) && Fits(c, base) && Is(I.slots, pc, Yield)
    ensures Run(I.M(), At(base, pc, values, st, clo), 1) == Some(At(base, pc + 1, values, Turn(c, st), clo))
  {
    hide Run, BodyAt, Filled, FilledAt, Does, Exec, ExecStack, ExecVariable, ExecCall;
    ExecIsJump(I, At(base, pc, values, st, clo), Yield);
    Goes(I, At(base, pc, values, st, clo), Yield, At(base, pc + 1, values, Turn(c, st), clo));
  }

  /** One warp deeper. */
  function Warped(base: State): State {
    base.(warp := base.warp + 1)
  }

  lemma WarpStartGoes(I: Image, base: State, pc: nat, values: seq<Value>, st: St, clo: seq<Clo<nat>>)
    requires Filled(I) && base.calls != [] && Is(I.slots, pc, WarpStart)
    ensures Run(I.M(), At(base, pc, values, st, clo), 1)
            == Some(At(Warped(base), pc + 1, values, st, clo))
  {
    hide Run, BodyAt, Filled, FilledAt;
    Goes(I, At(base, pc, values, st, clo), WarpStart, At(Warped(base), pc + 1, values, st, clo));
  }

  lemma WarpStopGoes(I: Image, base: State, pc: nat, values: seq<Value>, st: St, clo: seq<Clo<nat>>)
    requires Filled(I) && base.calls != [] && Is(I.slots, pc, WarpStop)
    ensures Run(I.M(), At(Warped(base), pc, values, st, clo), 1)
            == Some(At(base, pc + 1, values, st, clo))
  {
    hide Run, BodyAt, Filled, FilledAt;
    Goes(I, At(Warped(base), pc, values, st, clo), WarpStop, At(base, pc + 1, values, st, clo));
  }

  // ----- variables -----

  lemma PushVariableMeets(I: Image, base: State, pc: nat, floor: seq<Value>, name: Str, st: St, clo: seq<Clo<nat>>,
                          fuel: nat) returns (n: nat)
    requires Filled(I) && base.calls != [] && Tied(I, clo, st.closures) && Is(I.slots, pc, PushVariable(name))
    ensures var c := Lookup(st.locals, I.p.outer, name);
            Meets(I, base, At(base, pc, floor, st, clo), floor, pc + 1, n, clo, fuel,
                  match c
                  case None => Raised(UndefinedVariable(name), st)
                  case Some(cell) => Done(Leaves([Cell(st.heap.cells, cell)]), st))
  {
    hide Run, BodyAt, Meets, Cell, Lookup, Filled, FilledAt, Does, Exec, ExecStack, ExecJump, ExecCall;
    var c := Lookup(st.locals, I.p.outer, name);
    var s := At(base, pc, floor, st, clo);
    ExecIsVariable(I, s, PushVariable(name));
    if c.None? {
      n := 0;
      Fails(I, base, s, floor, pc + 1, PushVariable(name), UndefinedVariable(name), s, st, clo, fuel);
    } else {
      n := 1;
      var v := Cell(st.heap.cells, c.value);
      Goes(I, s, PushVariable(name), At(base, pc + 1, floor + [v], st, clo));
      Lands(I, base, s, floor, [v], pc + 1, 1, clo, fuel, st);
    }
  }

  lemma DeclareGoes(I: Image, base: State, pc: nat, values: seq<Value>, name: Str, st: St, clo: seq<Clo<nat>>)
    requires Filled(I) && base.calls != [] && Is(I.slots, pc, DeclareLocal(name))
    ensures Run(I.M(), At(base, pc, values, st, clo), 1) == Some(At(base, pc + 1, values, DeclareIn(st, name), clo))
  {
    hide Run, BodyAt, Define, Filled, FilledAt, Does, Exec, ExecStack, ExecJump, ExecCall;
    ExecIsVariable(I, At(base, pc, values, st, clo), DeclareLocal(name));
    Goes(I, At(base, pc, values, st, clo), DeclareLocal(name), At(base, pc + 1, values, DeclareIn(st, name), clo));
  }

  lemma {:induction false} DeclareAllGoes(I: Image, base: State, pc: nat, values: seq<Value>, names: seq<Str>, st: St,
                                          clo: seq<Clo<nat>>)
    requires Filled(I) && base.calls != [] && DeclaresAt(I.slots, names, pc)
    ensures Run(I.M(), At(base, pc, values, st, clo), |names|)
            == Some(At(base, pc + |names|, values, DeclareAllIn(st, names), clo))
    decreases |names|
  {
    hide At, DeclareIn, Filled, FilledAt, BodyAt, Step;
    if names != [] {
      assert I.slots[pc] == I.slots[pc + 0] == Ins(DeclareLocal(names[0]));
      DeclareGoes(I, base, pc, values, names[0], st, clo);
      var st1 := DeclareIn(st, names[0]);
      forall i | 0 <= i < |names| - 1 ensures I.slots[pc + 1 + i] == Ins(DeclareLocal(names[1..][i])) {
        assert I.slots[pc + (i + 1)] == Ins(DeclareLocal(names[i + 1]));
      }
      DeclareAllGoes(I, base, pc + 1, values, names[1..], st1, clo);
      RunAdd(I.M(), At(base, pc, values, st, clo), 1, |names| - 1);
    }
  }

  lemma InitUpvarMeets(I: Image, base: State, c: Ctx, pc: nat, floor: seq<Value>, name: Str, st: St,
                       clo: seq<Clo<nat>>, fuel: nat)
    requires Filled(I) && Fits(c, base) && Tied(I, clo, st.closures) && Is(I.slots, pc, InitUpvar(name))
    ensures match InitUpvarCell(I.p.w, name, st.locals, I.p.outer, c.parent, st.heap)
            case Ok(l) => Run(I.M(), At(base, pc, floor, st, clo), 1)
                          == Some(At(base, pc + 1, floor, st.(locals := l), clo))
            case Err(err) =>
              forall next: nat :: Meets(I, base, At(base, pc, floor, st, clo), floor, next, 0, clo, fuel,
                                        Raised(err, st))
  {
    hide Run, BodyAt, Meets, InitUpvarCell, Filled, FilledAt, Does, Exec, ExecStack, ExecJump, ExecCall;
    var r := InitUpvarCell(I.p.w, name, st.locals, I.p.outer, c.parent, st.heap);
    var s := At(base, pc, floor, st, clo);
    ExecIsVariable(I, s, InitUpvar(name));
    if r.Ok? {
      Goes(I, s, InitUpvar(name), At(base, pc + 1, floor, st.(locals := r.value), clo));
    } else {
      forall next: nat ensures Meets(I, base, s, floor, next, 0, clo, fuel, Raised(r.error, st)) {
        Fails(I, base, s, floor, next, InitUpvar(name), r.error, s, st, clo, fuel);
      }
    }
  }

  lemma AssignMeets(I: Image, base: State, pc: nat, floor: seq<Value>, name: Str, v: Value, st: St, clo: seq<Clo<nat>>,
                    fuel: nat) returns (n: nat)
    requires Filled(I) && base.calls != [] && Tied(I, clo, st.closures) && Is(I.slots, pc, Assign(name))
    ensures Meets(I, base, At(base, pc, floor + [v], st, clo), floor, pc + 1, n, clo, fuel,
                  StmtGoal(SetVariable(I.p, st, name, v)))
  {
    hide Run, BodyAt, Meets, SetCell, Lookup, Filled, FilledAt, Tied, BinaryOn, InitUpvarCell, Define, Does, Exec;
    hide ExecStack, ExecJump, ExecCall;
    var values := floor + [v];
    assert values[..|values| - 1] == floor;
    var c := Lookup(st.locals, I.p.outer, name);
    var s := At(base, pc, values, st, clo);
    ExecIsVariable(I, s, Assign(name));
    if c.None? {
      n := 0;
      Fails(I, base, s, floor, pc + 1, Assign(name), UndefinedVariable(name), s.(values := floor), st, clo, fuel);
    } else {
      n := 1;
      var st' := SetVariable(I.p, st, name, v).st;
      Goes(I, s, Assign(name), At(base, pc + 1, floor, st', clo));
      assert floor + [] == floor;
      Lands(I, base, s, floor, [], pc + 1, 1, clo, fuel, st');
    }
  }

  lemma ChangeMeets(I: Image, base: State, pc: nat, floor: seq<Value>, name: Str, v: Value, st: St, clo: seq<Clo<nat>>,
                    fuel: nat) returns (n: nat)
    requires Filled(I) && base.calls != [] && Tied(I, clo, st.closures) && Is(I.slots, pc, BinaryOpAssign(name, Add))
    ensures Meets(I, base, At(base, pc, floor + [v], st, clo), floor, pc + 1, n, clo, fuel,
                  StmtGoal(ChangeVariable(I.p, st, name, v)))
  {
    hide Run, BodyAt, Meets, SetCell, Cell, Lookup, BinaryOn, Filled, FilledAt, Tied, InitUpvarCell, Define, Does;
    hide Exec, ExecStack, ExecJump, ExecCall;
    var values := floor + [v];
    assert values[..|values| - 1] == floor;
    var c := Lookup(st.locals, I.p.outer, name);
    var s := At(base, pc, values, st, clo);
    var ins := BinaryOpAssign(name, Add);
    ExecIsVariable(I, s, ins);
    if c.None? {
      n := 0;
      Fails(I, base, s, floor, pc + 1, ins, UndefinedVariable(name), s.(values := floor), st, clo, fuel);
    } else {
      var r := BinaryOn(I.p.w, Add, Cell(st.heap.cells, c.value), v, st.heap.lists);
      if r.Err? {
        n := 0;
        Fails(I, base, s, floor, pc + 1, ins, r.error, s.(values := floor), st, clo, fuel);
      } else {
        n := 1;
        var st' := ChangeVariable(I.p, st, name, v).st;
        Goes(I, s, ins, At(base, pc + 1, floor, st', clo));
        assert floor + [] == floor;
        Lands(I, base, s, floor, [], pc + 1, 1, clo, fuel, st');
      }
    }
  }

  // ----- calls -----

  /** The activation that a call at `pc` starts. */
  function Activation(base: State, pc: nat, floor: seq<Value>, st: St, locals: Locals): State {
    base.(calls := WithLocals(base.calls, st.locals)
          + [Frame(Some(pc), Some(pc + 1), base.warp, |floor|, |base.handlers|, locals)])
  }

  lemma ActivationFits(base: State, c: Ctx, pc: nat, floor: seq<Value>, st: St, locals: Locals, ent: Option<nat>)
    requires Fits(c, base)
    ensures Fits(Callee(c, st, ent), Activation(base, pc, floor, st, locals))
  {
  }

  lemma Entered(base: State, pc: nat, pos: nat, floor: seq<Value>, args: seq<Value>, st: St, clo: seq<Clo<nat>>,
                locals: Locals, heap: Heap)
    requires base.calls != []
    ensures Enter(At(base, pc, floor + args, st, clo), pc + 1, pos, floor, locals, heap)
            == At(Activation(base, pc, floor, st, locals), pos, floor, st.(locals := locals, heap := heap), clo)
  {
    var calls := Activation(base, pc, floor, st, locals).calls;
    assert WithLocals(calls, locals) == calls;
  }

  lemma CallExec(I: Image, base: State, c: Ctx, pc: nat, floor: seq<Value>, args: seq<Value>, pos: nat,
                 params: seq<Str>, st: St, clo: seq<Clo<nat>>)
    requires Fits(c, base) && |params| == |args| && NulFree(params)
    ensures ExecCallAt(I, At(base, pc, floor + args, st, clo), Call(pos, LosslessJoin(params)))
            == if c.depth >= I.p.w.maxCallDepth
              then Failed(CallDepthLimit(I.p.w.maxCallDepth), At(base, pc, floor + args, st, clo))
               else var (l, h) := DefineAll(map[], st.heap, params, args);
                    Went(At(Activation(base, pc, floor, st, l), pos, floor, st.(locals := l, heap := h), clo))
  {
    hide DefineAll, LosslessSplit, LosslessJoin, Activation, Enter;
    JoinRoundTrip(params);
    assert (floor + args)[|floor|..] == args && (floor + args)[..|floor|] == floor;
    var (l, h) := DefineAll(map[], st.heap, params, args);
    Entered(base, pc, pos, floor, args, st, clo, l, h);
  }

  ghost predicate BlockAt(I: Image, fn: Fn, pos: nat) {
    BodyAt(Scope(I.p.fns, fn.ent), I.slots, fn.upvars, fn.body, pos)
  }

  /** The evaluator's state inside the body of a custom block called with `args`. */
  function Given(fn: Fn, st: St, args: seq<Value>): St {
    var (l, h) := DefineAll(map[], st.heap, fn.params, args);
    st.(locals := l, heap := h)
  }

  /** The custom block that a name means, and where its body starts. */
  function Target(I: Image, ent: Option<nat>, name: Str): Option<(Fn, nat)> {
    match ResolveKey(I.p.fns, ent, name)
    case Some(k) => if k in I.p.fns && k in I.fnEntry then Some((I.p.fns[k], I.fnEntry[k])) else None
    case None => None
  }

  /** The body a call hole leads to. */
  lemma CallTarget(I: Image, pc: nat, name: Str, ent: Option<nat>)
    requires Filled(I) && Hole(I.slots, pc, CallHole(name, ent))
    ensures match Target(I, ent, name)
            case Some(t) => Stands(I, pc, Call(t.1, LosslessJoin(t.0.params))) && BlockAt(I, t.0, t.1)
            case None => false
  {
    hide BodyAt;
    assert FilledAt(I, pc);
  }

  /** The instruction that makes a closure of the code at `pos`, and the closure it makes. */
  function Making(pos: nat, params: seq<Str>, captures: seq<Str>): Instruction {
    MakeClosure(pos, |params|, LosslessJoin(params + captures))
  }

  function NextClosure<C>(clo: seq<Clo<C>>): Value {
    Closure(|clo|)
  }

  lemma MakeClosureExec(I: Image, base: State, c: Ctx, pc: nat, floor: seq<Value>, pos: nat, params: seq<Str>,
                        captures: seq<Str>, st: St, clo: seq<Clo<nat>>)
    requires Fits(c, base) && NulFree(params + captures)
    ensures ExecCallAt(I, At(base, pc, floor, st, clo), Making(pos, params, captures))
            == match Capture(st.locals, I.p.outer, captures)
               case Err(err) => Failed(err, At(base, pc, floor, st, clo))
               case Ok(caps) => Went(At(base, pc + 1, floor + [NextClosure(clo)], st, clo + [Clo(pos, params, caps)]))
  {
    hide Capture, LosslessSplit, LosslessJoin;
    JoinRoundTrip(params + captures);
    assert (params + captures)[|params|..] == captures && (params + captures)[..|params|] == params;
  }

  /** Calls, closures, returns and handlers. */
  lemma ExecIsCall(I: Image, s: State, ins: Instruction)
    requires s.calls != []
    requires ins.Call? || ins.CallClosure? || ins.MakeClosure? || ins.Return? || ins.PushHandler? || ins.PopHandler?
    ensures Does(I, s, ins) == ExecCallAt(I, s, ins)
  {
    hide ExecCall, ExecStack, ExecJump, ExecVariable;
  }

  lemma CallClosureEnters(w: World, outer: Locals, aft: nat, s: State, n: nat, id: nat, args: seq<Value>)
    requires s.calls != [] && |s.values| == n + 1 + |args| && s.values[n] == Closure(id) && s.values[n + 1..] == args
    requires id < |s.closures| && |s.closures[id].params| == |args|
    ensures var (l, h) := DefineAll(s.closures[id].captures, s.heap, s.closures[id].params, args);
            ExecCall(w, outer, CallClosure(false, |args|), aft, s)
                == Went(Enter(s, aft, s.closures[id].code, s.values[..n], l, h))
  {
    hide DefineAll, Enter;
  }

  /** Whether a value is a closure that takes `n` arguments, and the error if it is not. */
  predicate Accepts<C>(clo: seq<Clo<C>>, f: Value, n: int) {
    f.Closure? && f.id < |clo| && |clo[f.id].params| == n
  }

  function Refusal<C>(clo: seq<Clo<C>>, f: Value, n: int): Error {
    if f.Closure? && f.id < |clo| && n >= 0 then ClosureArgCount(|clo[f.id].params|, n)
    else Conversion(TypeOf(f), ClosureT)
  }

  function Entry(clo: seq<Clo<nat>>, id: nat): nat {
    if id < |clo| then clo[id].code else 0
  }

  /** The evaluator's state inside the body of a closure called with `args`. */
  function Passed<C>(clo: seq<Clo<C>>, id: nat, st: St, args: seq<Value>): St {
    if id < |clo| then
      var (l, h) := DefineAll(clo[id].captures, st.heap, clo[id].params, args);
      st.(locals := l, heap := h)
    else st
  }

  lemma CallClosureExec(I: Image, base: State, pc: nat, floor: seq<Value>, id: nat, args: seq<Value>, st: St,
                        clo: seq<Clo<nat>>)
    requires base.calls != [] && Accepts(clo, Closure(id), |args|)
    ensures var st1 := Passed(clo, id, st, args);
            ExecCallAt(I, At(base, pc, floor + [Closure(id)] + args, st, clo), Calling(args))
            == Went(At(Activation(base, pc, floor, st, st1.locals), Entry(clo, id), floor, st1, clo))
  {
    hide DefineAll, Activation, Enter, WithLocals, ExecCall;
    var values := floor + [Closure(id)] + args;
    var n := |floor|;
    assert values[n] == Closure(id) && values[n + 1..] == args && values[..n] == floor;
    CallClosureEnters(I.p.w, I.p.outer, pc + 1, At(base, pc, values, st, clo), n, id, args);
    var (l, h) := DefineAll(clo[id].captures, st.heap, clo[id].params, args);
    Entered(base, pc, clo[id].code, floor, [Closure(id)] + args, st, clo, l, h);
    assert floor + ([Closure(id)] + args) == values;
  }

  lemma CallClosureErr(I: Image, base: State, pc: nat, floor: seq<Value>, f: Value, args: seq<Value>, st: St,
                       clo: seq<Clo<nat>>)
    requires base.calls != [] && !Accepts(clo, f, |args|)
    ensures var s := At(base, pc, floor + [f] + args, st, clo);
            ExecCallAt(I, s, Calling(args)) == Failed(Refusal(clo, f, |args|), s.(values := floor))
  {
    hide DefineAll, Enter, WithLocals, Capture, LosslessSplit;
    var values := floor + [f] + args;
    var n := |floor|;
    assert values[n] == f && values[..n] == floor;
  }

  /** A return lands behind the call, in the caller's scope and warp, with the caller's handlers. */
  lemma ReturnGoes(I: Image, base: State, pc: nat, floor: seq<Value>, st: St, locals: Locals, r: State, v: Value,
                   st': St, clo: seq<Clo<nat>>)
    requires Filled(I) && base.calls != []
    requires Returning(I, Activation(base, pc, floor, st, locals), floor, r, v, st', clo)
    ensures Run(I.M(), r, 1) == Some(At(base, pc + 1, floor + [v], st'.(locals := st.locals), clo))
  {
    hide Run, BodyAt, Filled, FilledAt, OnStack, ExecJump, ExecVariable;
    var top := r.calls[|r.calls| - 1];
    assert top.valueSize == |floor| && top.handlerSize == |base.handlers| && top.warp == base.warp;
    assert r.values[..|floor|] == r.values[..|r.values| - 1][..|floor|] == floor;
    assert r.handlers[..|base.handlers|] == base.handlers;
    assert r.calls[..|r.calls| - 1] == WithLocals(base.calls, st.locals);
    Goes(I, r, Return, At(base, pc + 1, floor + [v], st'.(locals := st.locals), clo));
  }

  lemma WreckOut(base: State, pc: nat, floor: seq<Value>, st: St, locals: Locals, f: State, st': St, clo: seq<Clo<nat>>)
    requires base.calls != [] && Wreck(Activation(base, pc, floor, st, locals), floor, f, st', clo)
    ensures Wreck(base, floor, f, st'.(locals := st.locals), clo)
  {
    var k := |base.calls|;
    assert f.calls[..k] == f.calls[..k + 1][..k] == WithLocals(base.calls, st.locals);
  }

  /** What a body meets in its own activation, the call meets in the caller's. */
  lemma CallResumes(I: Image, base: State, pc: nat, s: State, floor: seq<Value>, st: St, locals: Locals, n: nat,
                    clo: seq<Clo<nat>>, fuel: nat, o: Out<Value>)
    returns (n': nat)
    requires Filled(I) && base.calls != []
    requires Meets(I, Activation(base, pc, floor, st, locals), s, floor, 0, n, clo, fuel, BodyGoal(o))
    ensures Meets(I, base, s, floor, pc + 1, n', clo, fuel, OneGoal(Resume(o, st.locals)))
  {
    hide Step, StepImpl, BodyAt, Filled, FilledAt, Returning, Activation, At, Wreck, Run;
    n' := n;
    if o.Done? {
      var r := Run(I.M(), s, n).value;
      ReturnGoes(I, base, pc, floor, st, locals, r, o.v, o.st, clo);
      RunAdd(I.M(), s, n, 1);
      n' := n + 1;
    } else if o.Raised? {
      WreckOut(base, pc, floor, st, locals, StepImpl(I.M(), Run(I.M(), s, n).value).s, o.st, clo);
    }
  }

  // ----- handlers -----

  function Guarded(base: State, pos: nat, name: Str, floor: seq<Value>): State {
    base.(handlers := base.handlers + [Handler(pos, name, base.warp, |base.calls|, |floor|)])
  }

  lemma PushHandlerGoes(I: Image, base: State, pc: nat, floor: seq<Value>, pos: nat, name: Str, st: St,
                        clo: seq<Clo<nat>>)
    requires Filled(I) && base.calls != [] && Is(I.slots, pc, PushHandler(pos, name))
    ensures Run(I.M(), At(base, pc, floor, st, clo), 1)
            == Some(At(Guarded(base, pos, name, floor), pc + 1, floor, st, clo))
  {
    hide Run, BodyAt, Filled, FilledAt, OnStack, ExecJump, ExecVariable;
    Goes(I, At(base, pc, floor, st, clo), PushHandler(pos, name),
         At(Guarded(base, pos, name, floor), pc + 1, floor, st, clo));
  }

  lemma PopHandlerGoes(I: Image, base: State, pc: nat, floor: seq<Value>, pos: nat, name: Str, st: St,
                       clo: seq<Clo<nat>>)
    requires Filled(I) && base.calls != [] && Is(I.slots, pc, PopHandler)
    ensures Run(I.M(), At(Guarded(base, pos, name, floor), pc, floor, st, clo), 1)
            == Some(At(base, pc + 1, floor, st, clo))
  {
    hide Run, BodyAt, Filled, FilledAt, OnStack, ExecJump, ExecVariable;
    var g := Guarded(base, pos, name, floor);
    assert g.handlers[..|g.handlers| - 1] == base.handlers;
    Goes(I, At(g, pc, floor, st, clo), PopHandler, At(base, pc + 1, floor, st, clo));
  }

  lemma UnwindGoes(I: Image, base: State, floor: seq<Value>, pos: nat, name: Str, err: Error, f: State, st: St,
                   clo: seq<Clo<nat>>)
    requires base.calls != [] && Wreck(Guarded(base, pos, name, floor), floor, f, st, clo)
    ensures Unwind(I.p.w, err, f) == Went(At(Guarded(base, pos, name, floor), pos, floor, Caught(I.p, st, name, err),
                                             clo))
  {
    hide Message;
    var k := |base.calls|;
    assert f.calls[..k] == WithLocals(base.calls, st.locals);
    assert f.values[..|floor|] == floor;
    var g := Guarded(base, pos, name, floor);
    assert g.handlers[|g.handlers| - 1] == Handler(pos, name, base.warp, k, |floor|);
    var (l, h) := Define(st.locals, st.heap, name, Txt(Message(I.p.w, err)));
    assert WithLocals(WithLocals(base.calls, st.locals), l) == WithLocals(base.calls, l);
  }

  /** An error inside a guarded stretch resumes at the handler, with the stack, warp and handlers as
      they were when the handler was pushed, and the error's message bound. */
  lemma Recovers(I: Image, base: State, s: State, floor: seq<Value>, pos: nat, name: Str, next: nat, n: nat,
                 clo: seq<Clo<nat>>, fuel: nat, err: Error, st: St)
    requires base.calls != [] && Meets(I, Guarded(base, pos, name, floor), s, floor, next, n, clo, fuel,
                                       Raised(err, st))
    ensures Run(I.M(), s, n + 1) == Some(At(Guarded(base, pos, name, floor), pos, floor, Caught(I.p, st, name, err),
                                            clo))
    ensures Tied(I, clo, st.closures)
  {
    hide Wreck, StepImpl, Unwind, At, Guarded, Tied, Caught, Returning;
    var r := Run(I.M(), s, n).value;
    var f := StepImpl(I.M(), r).s;
    UnwindGoes(I, base, floor, pos, name, err, f, st, clo);
    var t := At(Guarded(base, pos, name, floor), pos, floor, Caught(I.p, st, name, err), clo);
    assert Step(I.M(), r) == Went(t);
    assert Run(I.M(), t, 0) == Some(t);
    RunTwo(I.M(), s, n, r, 1, t);
  }

  // ----- one more step along a stretch of code, by the stacks before and after -----

  ghost predicate On(I: Image, s: State, n: int, base: State, pc: int, values: seq<Value>, st: St, clo: seq<Clo<nat>>) {
    base.calls != [] && Run(I.M(), s, n) == Some(At(base, pc, values, st, clo))
  }

  lemma Start(I: Image, base: State, pc: nat, values: seq<Value>, st: St, clo: seq<Clo<nat>>)
    requires base.calls != []
    ensures On(I, At(base, pc, values, st, clo), 0, base, pc, values, st, clo)
  {
    hide At, Step;
  }

  lemma OnTwo(I: Image, s: State, a: nat, base: State, pc: nat, values: seq<Value>, st: St, clo: seq<Clo<nat>>,
              b: nat, base': State, pc': nat, values': seq<Value>, st': St, clo': seq<Clo<nat>>)
    requires On(I, s, a, base, pc, values, st, clo)
             && On(I, At(base, pc, values, st, clo), b, base', pc', values', st', clo')
    ensures On(I, s, a + b, base', pc', values', st', clo')
  {
    hide At, Step;
    RunTwo(I.M(), s, a, At(base, pc, values, st, clo), b, At(base', pc', values', st', clo'));
  }

  predicate Dupes(ins: seq<Instruction>, i: nat, values: seq<Value>, values': seq<Value>) {
    && i < |ins| && ins[i].DupeValue? && ins[i].topIndex < |values|
    && values' == values + [values[|values| - 1 - ins[i].topIndex]]
  }

  predicate Swaps(ins: seq<Instruction>, i: nat, values: seq<Value>, values': seq<Value>) {
    && i < |ins| && ins[i].SwapValues? && ins[i].topIndex1 < |values| && ins[i].topIndex2 < |values|
    && values' == Swapped(values, ins[i].topIndex1, ins[i].topIndex2)
  }

  predicate Pops(ins: seq<Instruction>, i: nat, values: seq<Value>, values': seq<Value>) {
    i < |ins| && ins[i].PopValue? && values != [] && values' == values[..|values| - 1]
  }

  predicate Works(w: World, ins: seq<Instruction>, i: nat, args: seq<Value>, heap: Heap,
                  r: Result<(seq<Value>, Heap), Error>) {
    i < |ins| && Arity(ins[i]) == Some(|args|) && Prim(w, ins[i], args, heap) == r
  }

  /** A yield and a jump behind it. */
  predicate YieldsBack(ins: seq<Instruction>, i: nat) {
    i + 1 < |ins| && ins[i].Yield? && ins[i + 1].Jump?
  }

  function BackOf(ins: seq<Instruction>, i: nat): nat {
    if YieldsBack(ins, i) then ins[i + 1].to else 0
  }

  predicate Jumps(ins: seq<Instruction>, i: nat) {
    i < |ins| && ins[i].Jump?
  }

  /** Where the jump at `i` goes. */
  function JumpOf(ins: seq<Instruction>, i: nat): nat {
    if Jumps(ins, i) then ins[i].to else 0
  }

  predicate Branches(ins: seq<Instruction>, i: nat) {
    i < |ins| && ins[i].ConditionalJump?
  }

  function BranchOf(ins: seq<Instruction>, i: nat, b: bool): int {
    if Branches(ins, i) && b == ins[i].when_ then ins[i].to else -1
  }

  predicate PopsFirst(ins: seq<Instruction>, i: nat) {
    i < |ins| && ins[i].ListPopFirstOrElse?
  }

  function PopFirstOf(ins: seq<Instruction>, i: nat): nat {
    if PopsFirst(ins, i) then ins[i].goto else 0
  }

  lemma DupeTo(I: Image, s: State, n: nat, base: State, q: nat, ins: seq<Instruction>, i: nat, values: seq<Value>,
               values': seq<Value>, st: St, clo: seq<Clo<nat>>)
    requires Filled(I) && Are(I.slots, q, ins) && Dupes(ins, i, values, values')
    requires On(I, s, n, base, q + i, values, st, clo)
    ensures On(I, s, n + 1, base, q + i + 1, values', st, clo)
  {
    hide Filled, Are, At, Run;
    AreIs(I.slots, q, ins, i);
    DupeGoes(I, base, q + i, values, ins[i].topIndex, st, clo);
    RunTwo(I.M(), s, n, At(base, q + i, values, st, clo), 1, At(base, q + i + 1, values', st, clo));
  }

  lemma SwapTo(I: Image, s: State, n: nat, base: State, q: nat, ins: seq<Instruction>, i: nat, values: seq<Value>,
               values': seq<Value>, st: St, clo: seq<Clo<nat>>)
    requires Filled(I) && Are(I.slots, q, ins) && Swaps(ins, i, values, values')
    requires On(I, s, n, base, q + i, values, st, clo)
    ensures On(I, s, n + 1, base, q + i + 1, values', st, clo)
  {
    hide Filled, Are, At, Run;
    AreIs(I.slots, q, ins, i);
    SwapGoes(I, base, q + i, values, ins[i].topIndex1, ins[i].topIndex2, st, clo);
    RunTwo(I.M(), s, n, At(base, q + i, values, st, clo), 1, At(base, q + i + 1, values', st, clo));
  }

  /** An operator that succeeds. */
  lemma PrimTo(I: Image, s: State, n: nat, base: State, q: nat, ins: seq<Instruction>, i: nat, floor: seq<Value>,
               args: seq<Value>, out: seq<Value>, heap: Heap, values: seq<Value>, values': seq<Value>, st: St,
               clo: seq<Clo<nat>>)
    requires Filled(I) && Are(I.slots, q, ins) && Works(I.p.w, ins, i, args, st.heap, Ok((out, heap)))
    requires On(I, s, n, base, q + i, values, st, clo) && values == floor + args && values' == floor + out
    ensures On(I, s, n + 1, base, q + i + 1, values', st.(heap := heap), clo)
  {
    hide Filled, Are, At, Run, Prim, Arity;
    AreIs(I.slots, q, ins, i);
    PrimGoes(I, base, q + i, floor, ins[i], args, out, heap, st, clo);
    RunTwo(I.M(), s, n, At(base, q + i, values, st, clo), 1, At(base, q + i + 1, values', st.(heap := heap), clo));
  }

  lemma PopTo(I: Image, s: State, n: nat, base: State, q: nat, ins: seq<Instruction>, i: nat, values: seq<Value>,
              values': seq<Value>, st: St, clo: seq<Clo<nat>>)
    requires Filled(I) && Are(I.slots, q, ins) && Pops(ins, i, values, values')
    requires On(I, s, n, base, q + i, values, st, clo)
    ensures On(I, s, n + 1, base, q + i + 1, values', st, clo)
  {
    hide Filled, Are, At, Run;
    AreIs(I.slots, q, ins, i);
    assert values == values' + [values[|values| - 1]];
    PopGoes(I, base, q + i, values', values[|values| - 1], st, clo);
    RunTwo(I.M(), s, n, At(base, q + i, values, st, clo), 1, At(base, q + i + 1, values', st, clo));
  }

  lemma JumpTo(I: Image, s: State, n: nat, base: State, q: nat, ins: seq<Instruction>, i: nat, values: seq<Value>,
               st: St, clo: seq<Clo<nat>>)
    requires Filled(I) && Are(I.slots, q, ins) && Jumps(ins, i)
    requires On(I, s, n, base, q + i, values, st, clo)
    ensures On(I, s, n + 1, base, JumpOf(ins, i), values, st, clo)
  {
    hide Filled, Are, At, Run;
    AreIs(I.slots, q, ins, i);
    JumpGoes(I, base, q + i, values, ins[i].to, st, clo);
    RunTwo(I.M(), s, n, At(base, q + i, values, st, clo), 1, At(base, ins[i].to, values, st, clo));
  }

  lemma BranchTo(I: Image, s: State, n: nat, base: State, q: nat, ins: seq<Instruction>, i: nat, floor: seq<Value>,
                 b: bool, values: seq<Value>, st: St, clo: seq<Clo<nat>>)
    requires Filled(I) && Are(I.slots, q, ins) && Branches(ins, i)
    requires On(I, s, n, base, q + i, values, st, clo) && values == floor + [Bool(b)]
    ensures On(I, s, n + 1, base, if BranchOf(ins, i, b) >= 0 then BranchOf(ins, i, b) else q + i + 1, floor, st, clo)
  {
    hide Filled, Are, At, Run;
    AreIs(I.slots, q, ins, i);
    BranchGoes(I, base, q + i, floor, Bool(b), ins[i].to, ins[i].when_, st, clo);
    RunTwo(I.M(), s, n, At(base, q + i, values, st, clo), 1,
           At(base, if b == ins[i].when_ then ins[i].to else q + i + 1, floor, st, clo));
  }

  /** Takes the first item off a work list, or leaves the loop. */
  lemma PopFirstTo(I: Image, s: State, n: nat, base: State, q: nat, ins: seq<Instruction>, i: nat, floor: seq<Value>,
                   work: nat, values: seq<Value>, st: St, clo: seq<Clo<nat>>)
    requires Filled(I) && Are(I.slots, q, ins) && PopsFirst(ins, i)
    requires On(I, s, n, base, q + i, values, st, clo) && values == floor + [List(work)]
    ensures var items := Items(st.heap.lists, work);
            if items == [] then On(I, s, n + 1, base, PopFirstOf(ins, i), floor, st, clo)
            else On(I, s, n + 1, base, q + i + 1, floor + [FirstOf(items)], TakeFirst(st, work), clo)
  {
    hide Filled, Are, At, Run, Items, TakeFirst;
    AreIs(I.slots, q, ins, i);
    PopFirstGoes(I, base, q + i, floor, work, ins[i].goto, st, clo);
    RunAdd(I.M(), s, n, 1);
  }

  /** Lets others run and goes back to the top of a loop. */
  lemma BackTo(I: Image, s: State, n: nat, base: State, c: Ctx, q: nat, ins: seq<Instruction>, i: nat,
               values: seq<Value>, st: St, clo: seq<Clo<nat>>)
    requires Filled(I) && Fits(c, base) && Are(I.slots, q, ins) && YieldsBack(ins, i)
    requires On(I, s, n, base, q + i, values, st, clo)
    ensures On(I, s, n + 2, base, BackOf(ins, i), values, Turn(c, st), clo)
  {
    hide Filled, Are, At, Run, Turn, Fits;
    AreIs(I.slots, q, ins, i);
    AreIs(I.slots, q, ins, i + 1);
    YieldGoes(I, base, q + i, values, c, st, clo);
    JumpGoes(I, base, q + i + 1, values, ins[i + 1].to, Turn(c, st), clo);
    RunTwo(I.M(), s, n, At(base, q + i, values, st, clo), 1, At(base, q + i + 1, values, Turn(c, st), clo));
    RunTwo(I.M(), s, n + 1, At(base, q + i + 1, values, Turn(c, st), clo), 1,
           At(base, ins[i + 1].to, values, Turn(c, st), clo));
  }

  // ----- outcomes -----

  lemma Landed(I: Image, base: State, s: State, floor: seq<Value>, next: nat, n: nat, clo: seq<Clo<nat>>, fuel: nat,
               vs: seq<Value>, st: St)
    requires Meets(I, base, s, floor, next, n, clo, fuel, Done(Leaves(vs), st))
    ensures base.calls != []
    ensures Run(I.M(), s, n) == Some(At(base, next, floor + vs, st, clo)) && Tied(I, clo, st.closures)
  {
    hide Run, At, Tied, StepImpl;
  }

  /** Further along from a place already reached. */
  lemma OnMeets(I: Image, s: State, a: nat, base: State, pc: nat, values: seq<Value>, st: St, clo: seq<Clo<nat>>,
                base': State, floor: seq<Value>, next: nat, b: nat, clo': seq<Clo<nat>>, fuel: nat, fuel': nat,
                    o: Out<Goal>)
    requires On(I, s, a, base, pc, values, st, clo)
             && Meets(I, base', At(base, pc, values, st, clo), floor, next, b, clo', fuel', o)
    requires fuel <= a + fuel'
    ensures Meets(I, base', s, floor, next, a + b, clo', fuel, o)
  {
    hide Meets, At, Step;
    Chain(I, base', s, a, At(base, pc, values, st, clo), floor, next, b, clo', fuel, fuel', o);
  }

  lemma OnLands(I: Image, s: State, n: nat, base: State, next: nat, floor: seq<Value>, vs: seq<Value>, st: St,
                clo: seq<Clo<nat>>, fuel: nat)
    requires On(I, s, n, base, next, floor + vs, st, clo) && Tied(I, clo, st.closures)
    ensures Meets(I, base, s, floor, next, n, clo, fuel, Done(Leaves(vs), st))
  {
    hide Tied, At, Step, Returning, StepImpl, Wreck;
    Lands(I, base, s, floor, vs, next, n, clo, fuel, st);
  }

  /** A stretch run where the one before it ended: either it ends there too, or its outcome is that of
      everything around it. */
  lemma Continue(I: Image, s: State, a: nat, base: State, pc: nat, values: seq<Value>, st: St, clo: seq<Clo<nat>>,
                 next: nat, b: nat, clo': seq<Clo<nat>>, fuel: nat, o: Out<Goal>, floor: seq<Value>, next': nat)
    requires On(I, s, a, base, pc, values, st, clo)
             && Meets(I, base, At(base, pc, values, st, clo), values, next, b, clo', fuel, o)
    requires floor <= values
    ensures match o
            case Done(Leaves(vs), st') =>
              On(I, s, a + b, base, next, values + vs, st', clo') && Tied(I, clo', st'.closures)
            case _ => Meets(I, base, s, floor, next', a + b, clo', fuel, o)
  {
    hide Meets, At, Step, Tied;
    OnMeets(I, s, a, base, pc, values, st, clo, base, values, next, b, clo', fuel, fuel, o);
    if Escapes(o) {
      Escape(I, base, base, s, floor, values, next', next, a + b, clo', fuel, o);
    } else {
      Landed(I, base, s, values, next, a + b, clo', fuel, o.v.vs, o.st);
    }
  }

  /** An evaluator that had no fuel promises no steps. */
  lemma NoFuel(I: Image, base: State, s: State, floor: seq<Value>, next: nat, clo: seq<Clo<nat>>)
    requires base.calls != []
    ensures Meets(I, base, s, floor, next, 0, clo, 0, OutOfFuel)
  {
    hide Step, BodyAt, Exec, Is;
  }

  /** A jump behind a stretch. */
  lemma ThenJump(I: Image, base: State, s: State, floor: seq<Value>, at_: nat, to: nat, a: nat, clo: seq<Clo<nat>>,
                 fuel: nat, o: Out<Goal>) returns (n: nat)
    requires Filled(I) && base.calls != [] && Is(I.slots, at_, Jump(to))
             && Meets(I, base, s, floor, at_, a, clo, fuel, o)
    ensures Meets(I, base, s, floor, to, n, clo, fuel, o)
  {
    hide Meets, At, Run, Tied, Filled;
    if Escapes(o) {
      Escape(I, base, base, s, floor, floor, to, at_, a, clo, fuel, o);
      n := a;
    } else {
      Landed(I, base, s, floor, at_, a, clo, fuel, o.v.vs, o.st);
      var t := At(base, at_, floor + o.v.vs, o.st, clo);
      JumpGoes(I, base, at_, floor + o.v.vs, to, o.st, clo);
      n := a + 1;
      RunTwo(I.M(), s, a, t, 1, At(base, to, floor + o.v.vs, o.st, clo));
      Lands(I, base, s, floor, o.v.vs, to, n, clo, fuel, o.st);
    }
  }
}
