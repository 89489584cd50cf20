/** The interpreter: one step of a process, over either form of code. */
module Machine {
  import opened Common
  import opened Bytecode
  import opened Codec
  import opened Values
  import opened Elementwise
  import opened Tokens

  /** A closure; `code` says where its body is. */
  datatype Clo<C> = Clo(code: C, params: seq<Str>, captures: Locals)

  /** A call: where to resume and what to restore. The first entry has nowhere to return to. */
  datatype Frame = Frame(calledFrom: Option<nat>, returnTo: Option<nat>, warp: nat, valueSize: nat, handlerSize: nat,
                         locals: Locals)

  /** An error handler: where to resume and what to cut back to. */
  datatype Handler = Handler(pos: nat, name: Str, warp: nat, callSize: nat, valueSize: nat)

  /** A process, and the heap it works on. `turns` counts the times it let others run. */
  datatype State = State(pos: nat, warp: nat, calls: seq<Frame>, values: seq<Value>, handlers: seq<Handler>,
                         heap: Heap, closures: seq<Clo<nat>>, turns: nat)

  datatype Outcome =
    | Went(s: State)
    | Terminated(v: Value, s: State)
    | Failed(err: Error, s: State)
    | Stuck  // would panic, or leaves the modelled instruction set

  /** Code before linking is a list of instructions, after linking it is bytes. */
  datatype Program = Listing(ins: seq<Instruction>) | Binary_(code: seq<Byte>, data: seq<Byte>)

  datatype Machine = Machine(w: World, program: Program, outer: Locals)

  function Fetch(p: Program, pos: nat): Option<(Instruction, nat)> {
    match p
    case Listing(ins) => if pos < |ins| then Some((ins[pos], pos + 1)) else None
    case Binary_(code, data) => ReadInstruction(code, data, pos)
  }

  // ----- instructions that only work on operands and the heap -----

  /** Operands taken from the value stack; none for instructions that need more than operands. */
  function Arity(ins: Instruction): Option<nat> {
    match ins
    case PushBool(_) => Some(0)
    case PushInt(_) => Some(0)
    case PushNumber(_) => Some(0)
    case PushString(_) => Some(0)
    case PopValue => Some(1)
    case ToBool => Some(1)
    case ToNum => Some(1)
    case ListCons => Some(2)
    case ListCdr => Some(1)
    case ListIsEmpty => Some(1)
    case ListLength => Some(1)
    case ListRev => Some(1)
    case ListInsertLast => Some(2)
    case ListGetLast => Some(1)
    case ListAssignLast => Some(2)
    case ListRemoveLast => Some(1)
    case ListRemoveAll => Some(1)
    case Binary(_) => Some(2)
    case Variadic(op, len) => if op.StrCat? then None else Some(if len.Fixed? then len.count else 1)
    case Cmp(_) => Some(2)
    case Identical => Some(2)
    case Unary(_) => Some(1)
    case Throw => Some(1)
    case _ => None
  }

  function Push1(v: Value, heap: Heap): Result<(seq<Value>, Heap), Error> {
    Ok(([v], heap))
  }

  function Alloc(items: seq<Value>, heap: Heap): Result<(seq<Value>, Heap), Error> {
    Ok(([List(|heap.lists|)], heap.(lists := heap.lists + [items])))
  }

  /** Left fold of a binary operator. */
  function FoldBinary(w: World, op: BinaryOp, acc: Value, items: seq<Value>, heap: Heap): Result<(seq<Value>, Heap),
      Error>
    decreases |items|
  {
    if items == [] then Push1(acc, heap)
    else
      var r := BinaryOn(w, op, acc, items[0], heap.lists);
      if r.Err? then Err(r.error) else FoldBinary(w, op, r.value.0, items[1..], heap.(lists := r.value.1))
  }

  /** The item that a relation prefers, the earlier one on a tie. */
  function Extreme(w: World, r: Relation, best: Value, items: seq<Value>, heap: Heap): Result<(seq<Value>, Heap), Error>
    decreases |items|
  {
    if items == [] then Push1(best, heap)
    else
      var b := Relates(w, heap.lists, r, items[0], best);
      if b.Err? then Err(b.error) else Extreme(w, r, if b.value then items[0] else best, items[1..], heap)
  }

  function ConcatLists(lists: seq<seq<Value>>, items: seq<Value>): Result<seq<Value>, Error>
    decreases |items|
  {
    if items == [] then Ok([])
    else
      var l := AsList(items[0]);
      if l.Err? then Err(l.error)
      else
        var rest := ConcatLists(lists, items[1..]);
        if rest.Err? then Err(rest.error) else Ok(Items(lists, l.value) + rest.value)
  }

  /** A variadic operator on its items. */
  function Combine(w: World, op: VariadicOp, items: seq<Value>, heap: Heap): Result<(seq<Value>, Heap), Error> {
    if op.MakeList? then Alloc(items, heap)
    else if op.ListCat? then
      var r := ConcatLists(heap.lists, items);
      if r.Err? then Err(r.error) else Alloc(r.value, heap)
    else if op.MinOf? then if items == [] then Err(EmptyList) else Extreme(w, Less, items[0], items[1..], heap)
    else if op.MaxOf? then if items == [] then Err(EmptyList) else Extreme(w, Greater, items[0], items[1..], heap)
    else
      var bop := if op.AddAll? then Add else Mul;
      if items == [] then Push1(Num(if op.AddAll? then 0.0 else 1.0), heap)
      else if |items| == 1 then
        var r := UnaryOn(w, ToNumber, items[0], heap.lists);
        if r.Err? then Err(r.error) else Push1(r.value.0, heap.(lists := r.value.1))
      else FoldBinary(w, bop, items[0], items[1..], heap)
  }

  /** Instructions whose top operand is a list. */
  function OnList(ins: Instruction, args: seq<Value>, heap: Heap): Result<(seq<Value>, Heap), Error>
    requires |args| >= 1 && (ins.ListCons? || ins.ListInsertLast? ==> |args| == 2)
  {
    var l := AsList(args[|args| - 1]);
    if l.Err? then Err(l.error)
    else
      var id := l.value;
      var items := Items(heap.lists, id);
      var n := |items|;
      if ins.ListCons? then Alloc([args[0]] + items, heap)
      else if ins.ListCdr? then if n == 0 then Err(IndexOutOfBounds(1, 0)) else Alloc(items[1..], heap)
      else if ins.ListIsEmpty? then Push1(Bool(n == 0), heap)
      else if ins.ListLength? then Push1(Num(n as real), heap)
      else if ins.ListRev? then Alloc(seq(n, i requires 0 <= i < n => items[n - 1 - i]), heap)
      else if ins.ListInsertLast? then Ok(([], heap.(lists := SetItems(heap.lists, id, items + [args[0]]))))
      else if ins.ListGetLast? then if n == 0 then Err(IndexOutOfBounds(1, 0)) else Push1(items[n - 1], heap)
      else if ins.ListRemoveLast? then
        if n == 0 then Err(IndexOutOfBounds(1, 0))
        else Ok(([], heap.(lists := SetItems(heap.lists, id, items[..n - 1]))))
      else Ok(([], heap.(lists := SetItems(heap.lists, id, []))))
  }

  function AssignLast(list: Value, v: Value, heap: Heap): Result<(seq<Value>, Heap), Error> {
    var l := AsList(list);
    if l.Err? then Err(l.error)
    else
      var items := Items(heap.lists, l.value);
      if items == [] then Err(IndexOutOfBounds(1, 0))
      else Ok(([], heap.(lists := SetItems(heap.lists, l.value, items[|items| - 1 := v]))))
  }

  /** What an instruction makes of its operands: at most one result, and the heap. */
  function Prim(w: World, ins: Instruction, args: seq<Value>, heap: Heap): Result<(seq<Value>, Heap), Error> {
    if Arity(ins) != Some(|args|) then Err(HostError(0))
    else if ins.PushBool? then Push1(Bool(ins.flag), heap)
    else if ins.PushInt? then Push1(Num(ins.int32 as real), heap)
    else if ins.PushNumber? then
      var r := w.number(ins.bits);
      if r.None? then Err(BadNumber) else Push1(Num(r.value), heap)
    else if ins.PushString? then Push1(Txt(ins.text), heap)
    else if ins.PopValue? then Ok(([], heap))
    else if ins.ToBool? then
      var r := AsBool(args[0]);
      if r.Err? then Err(r.error) else Push1(Bool(r.value), heap)
    else if ins.ToNum? then
      var r := AsNum(w, args[0]);
      if r.Err? then Err(r.error) else Push1(Num(r.value), heap)
    else if ins.Binary? then
      var r := BinaryOn(w, ins.bop, args[0], args[1], heap.lists);
      if r.Err? then Err(r.error) else Push1(r.value.0, heap.(lists := r.value.1))
    else if ins.Unary? then
      var r := UnaryOn(w, ins.uop, args[0], heap.lists);
      if r.Err? then Err(r.error) else Push1(r.value.0, heap.(lists := r.value.1))
    else if ins.Cmp? then
      var r := Relates(w, heap.lists, ins.relation, args[0], args[1]);
      if r.Err? then Err(r.error) else Push1(Bool(r.value), heap)
    else if ins.Identical? then Push1(Bool(args[0] == args[1]), heap)
    else if ins.Variadic? then
      if ins.len.Fixed? then Combine(w, ins.vop, args, heap)
      else
        var l := AsList(args[0]);
        if l.Err? then Err(l.error) else Combine(w, ins.vop, Items(heap.lists, l.value), heap)
    else if ins.ListAssignLast? then AssignLast(args[0], args[1], heap)
    else if ins.Throw? then
      var r := AsTxt(w, args[0]);
      if r.Err? then Err(r.error) else Err(Custom(r.value))
    else OnList(ins, args, heap)
  }

  /** Instructions that only touch the value stack and the heap. */
  function OnStack(w: World, ins: Instruction, values: seq<Value>,
                   heap: Heap): Option<Result<(seq<Value>, Heap), Error>> {
    var n := |values|;
    if ins.DupeValue? then
      if ins.topIndex < n then Some(Ok((values + [values[n - 1 - ins.topIndex]], heap))) else None
    else if ins.SwapValues? then
      var i, j := ins.topIndex1, ins.topIndex2;
      if i < n && j < n then Some(Ok((values[n - 1 - i := values[n - 1 - j]][n - 1 - j := values[n - 1 - i]], heap)))
      else None
    else
      var a := Arity(ins);
      if a.None? || a.value > n then None
      else
        var r := Prim(w, ins, values[n - a.value..], heap);
        Some(if r.Err? then Err(r.error) else Ok((values[..n - a.value] + r.value.0, r.value.1)))
  }

  /** Operands a failed instruction has consumed. */
  function Consumed(ins: Instruction, values: seq<Value>): seq<Value> {
    var a := Arity(ins);
    if a.None? || a.value > |values| then values else values[..|values| - a.value]
  }

  // ----- scopes -----

  function TopLocals(s: State): Locals {
    if s.calls == [] then map[] else s.calls[|s.calls| - 1].locals
  }

  function WithLocals(calls: seq<Frame>, locals: Locals): (r: seq<Frame>)
    ensures |r| == |calls|
  {
    if calls == [] then [] else calls[|calls| - 1 := calls[|calls| - 1].(locals := locals)]
  }

  /** (Re)defines a variable in a fresh cell. */
  function Define(locals: Locals, heap: Heap, name: Str, v: Value): (Locals, Heap) {
    (locals[name := |heap.cells|], heap.(cells := heap.cells + [v]))
  }

  /** Defines the parameters of a call, left to right. */
  function DefineAll(locals: Locals, heap: Heap, names: seq<Str>, args: seq<Value>): (Locals, Heap)
    decreases |names|
  {
    if names == [] || args == [] then (locals, heap)
    else
      var (l, h) := Define(locals, heap, names[0], args[0]);
      DefineAll(l, h, names[1..], args[1..])
  }

  /** The cells captured by a new closure. */
  function Capture(locals: Locals, outer: Locals, names: seq<Str>): Result<Locals, Error>
    decreases |names|
  {
    if names == [] then Ok(map[])
    else
      var last := |names| - 1;
      var rest := Capture(locals, outer, names[..last]);
      if rest.Err? then Err(rest.error)
      else
        var c := Lookup(locals, outer, names[last]);
        if c.None? then Err(UndefinedVariable(names[last])) else Ok(rest.value[names[last] := c.value])
  }

  /** Links a parameter to the variable of the caller it names. */
  function InitUpvarCell(w: World, name: Str, locals: Locals, outer: Locals, parent: Option<Locals>,
                         heap: Heap): Result<Locals, Error> {
    var c := Lookup(locals, outer, name);
    if c.None? then Err(UndefinedVariable(name))
    else
      var target := AsTxt(w, Cell(heap.cells, c.value));
      if target.Err? then Err(target.error)
      else if parent.None? then Err(UpvarAtRoot)
      else if target.value !in parent.value then Err(UndefinedVariable(name))
      else Ok(locals[name := parent.value[target.value]])
  }

  // ----- one instruction -----

  function ExecStack(w: World, ins: Instruction, aft: nat, s: State): Outcome {
    var r := OnStack(w, ins, s.values, s.heap);
    if r.None? then Stuck
    else if r.value.Err? then Failed(r.value.error, s.(values := Consumed(ins, s.values)))
    else Went(s.(pos := aft, values := r.value.value.0, heap := r.value.value.1))
  }

  function ExecJump(ins: Instruction, aft: nat, s: State): Outcome {
    if ins.Jump? then Went(s.(pos := ins.to))
    else if ins.ConditionalJump? then
      if s.values == [] then Stuck
      else
        var n := |s.values| - 1;
        var b := AsBool(s.values[n]);
        if b.Err? then Failed(b.error, s.(values := s.values[..n]))
        else Went(s.(pos := if b.value == ins.when_ then ins.to else aft, values := s.values[..n]))
    else if ins.ListPopFirstOrElse? then
      if s.values == [] then Stuck
      else
        var n := |s.values| - 1;
        var l := AsList(s.values[n]);
        if l.Err? then Failed(l.error, s.(values := s.values[..n]))
        else
          var items := Items(s.heap.lists, l.value);
          if items == [] then Went(s.(pos := ins.goto, values := s.values[..n]))
          else Went(s.(pos := aft, values := s.values[..n] + [items[0]],
                       heap := s.heap.(lists := SetItems(s.heap.lists, l.value, items[1..]))))
    else if ins.Yield? then Went(s.(pos := aft, turns := s.turns + if s.warp == 0 then 1 else 0))
    else if ins.WarpStart? then Went(s.(pos := aft, warp := s.warp + 1))
    else if ins.WarpStop? && s.warp != 0 then Went(s.(pos := aft, warp := s.warp - 1))
    else Stuck
  }

  function ExecVariable(w: World, outer: Locals, ins: Instruction, aft: nat, s: State): Outcome {
    var locals := TopLocals(s);
    if ins.PushVariable? then
      var c := Lookup(locals, outer, ins.name);
      if c.None? then Failed(UndefinedVariable(ins.name), s)
      else Went(s.(pos := aft, values := s.values + [Cell(s.heap.cells, c.value)]))
    else if ins.DeclareLocal? then
      if ins.name in locals then Went(s.(pos := aft))
      else
        var (l, h) := Define(locals, s.heap, ins.name, Num(0.0));
        Went(s.(pos := aft, calls := WithLocals(s.calls, l), heap := h))
    else if ins.InitUpvar? then
      var parent := if |s.calls| > 1 then Some(s.calls[|s.calls| - 2].locals) else None;
      var r := InitUpvarCell(w, ins.name, locals, outer, parent, s.heap);
      if r.Err? then Failed(r.error, s) else Went(s.(pos := aft, calls := WithLocals(s.calls, r.value)))
    else if (ins.Assign? || ins.BinaryOpAssign?) && s.values != [] then
      var n := |s.values| - 1;
      var c := Lookup(locals, outer, ins.name);
      if c.None? then Failed(UndefinedVariable(ins.name), s.(values := s.values[..n]))
      else if ins.Assign? then
        Went(s.(pos := aft, values := s.values[..n],
                heap := s.heap.(cells := SetCell(s.heap.cells, c.value, s.values[n]))))
      else
        var r := BinaryOn(w, ins.bop, Cell(s.heap.cells, c.value), s.values[n], s.heap.lists);
        if r.Err? then Failed(r.error, s.(values := s.values[..n]))
        else Went(s.(pos := aft, values := s.values[..n],
                     heap := Heap(SetCell(s.heap.cells, c.value, r.value.0), r.value.1)))
    else Stuck
  }

  /** Enters a call: the operands are gone, and the callee starts with the given locals. */
  function Enter(s: State, aft: nat, pos: nat, values: seq<Value>, locals: Locals, heap: Heap): State {
    s.(pos := pos, values := values, heap := heap,
       calls := s.calls + [Frame(Some(s.pos), Some(aft), s.warp, |values|, |s.handlers|, locals)])
  }

  /** Leaves the innermost activation. */
  function ExecReturn(s: State): Outcome {
    if s.calls == [] then Stuck
    else
      var top := s.calls[|s.calls| - 1];
      if |s.values| < top.valueSize + 1 || |s.handlers| < top.handlerSize then Stuck
      else
        var v := s.values[|s.values| - 1];
        var values := s.values[..top.valueSize];
        if |s.calls| == 1 then
          Terminated(v, s.(warp := top.warp, values := values, handlers := s.handlers[..top.handlerSize]))
        else if top.returnTo.None? then Stuck
        else Went(s.(pos := top.returnTo.value, warp := top.warp, values := values + [v],
                     handlers := s.handlers[..top.handlerSize], calls := s.calls[..|s.calls| - 1]))
  }

  function ExecCall(w: World, outer: Locals, ins: Instruction, aft: nat, s: State): Outcome {
    if ins.Call? then
      if |s.calls| >= w.maxCallDepth then Failed(CallDepthLimit(w.maxCallDepth), s)
      else
        var params := LosslessSplit(ins.tokens);
        if |params| > |s.values| then Stuck
        else
          var n := |s.values| - |params|;
          var (l, h) := DefineAll(map[], s.heap, params, s.values[n..]);
          Went(Enter(s, aft, ins.pos, s.values[..n], l, h))
    else if ins.MakeClosure? then
      var names := LosslessSplit(ins.tokens);
      if ins.params > |names| then Stuck
      else
        var caps := Capture(TopLocals(s), outer, names[ins.params..]);
        if caps.Err? then Failed(caps.error, s)
        else Went(s.(pos := aft, values := s.values + [Closure(|s.closures|)],
                     closures := s.closures + [Clo(ins.pos, names[..ins.params], caps.value)]))
    else if ins.CallClosure? then
      if ins.newEntity || ins.args + 1 > |s.values| then Stuck
      else
        var n := |s.values| - (ins.args + 1);
        var f := s.values[n];
        if !f.Closure? || f.id >= |s.closures| then Failed(Conversion(TypeOf(f), ClosureT), s.(values := s.values[..n]))
        else
          var c := s.closures[f.id];
          if |c.params| != ins.args then Failed(ClosureArgCount(|c.params|, ins.args), s.(values := s.values[..n]))
          else
            var (l, h) := DefineAll(c.captures, s.heap, c.params, s.values[n + 1..]);
            Went(Enter(s, aft, c.code, s.values[..n], l, h))
    else if ins.Return? then ExecReturn(s)
    else if ins.PushHandler? then
      Went(s.(pos := aft, handlers := s.handlers + [Handler(ins.pos, ins.name, s.warp, |s.calls|, |s.values|)]))
    else if ins.PopHandler? && s.handlers != [] then
      Went(s.(pos := aft, handlers := s.handlers[..|s.handlers| - 1]))
    else Stuck
  }

  /** Executes one instruction. */
  function Exec(w: World, outer: Locals, ins: Instruction, aft: nat, s: State): Outcome {
    if s.calls == [] then Stuck
    else if ins.DupeValue? || ins.SwapValues? || Arity(ins).Some? then ExecStack(w, ins, aft, s)
    else if ins.Jump? || ins.ConditionalJump? || ins.ListPopFirstOrElse? || ins.Yield? || ins.WarpStart?
         || ins.WarpStop? then
      ExecJump(ins, aft, s)
    else if ins.PushVariable? || ins.DeclareLocal? || ins.InitUpvar? || ins.Assign? || ins.BinaryOpAssign? then
      ExecVariable(w, outer, ins, aft, s)
    else ExecCall(w, outer, ins, aft, s)
  }

  function StepImpl(m: Machine, s: State): Outcome {
    var f := Fetch(m.program, s.pos);
    if f.None? then Stuck else Exec(m.w, m.outer, f.value.0, f.value.1, s)
  }

  // ----- errors -----

  function Message(w: World, err: Error): Str {
    if err.Custom? then err.msg else w.describe(err)
  }

  /** Resumes at the innermost handler, cutting the stacks back to their sizes when it was pushed. */
  function Unwind(w: World, err: Error, s: State): Outcome {
    if s.handlers == [] then Failed(err, s)
    else
      var h := s.handlers[|s.handlers| - 1];
      if h.callSize == 0 || h.callSize > |s.calls| || h.valueSize > |s.values| then Stuck
      else
        var calls := s.calls[..h.callSize];
        var (l, heap) := Define(calls[h.callSize - 1].locals, s.heap, h.name, Txt(Message(w, err)));
        Went(s.(pos := h.pos, warp := h.warp, calls := WithLocals(calls, l), values := s.values[..h.valueSize],
                heap := heap))
  }

  /** One step of a process: an instruction, and recovery if it failed. */
  function Step(m: Machine, s: State): Outcome {
    var o := StepImpl(m, s);
    if o.Failed? then Unwind(m.w, o.err, o.s) else o
  }

  /** A process about to start at `pos`. */
  function Initial(pos: nat, locals: Locals, heap: Heap, closures: seq<Clo<nat>>): State {
    State(pos, 0, [Frame(None, None, 0, 0, 0, locals)], [], [], heap, closures, 0)
  }

  /** The state after `n` steps, if the process is still running then. */
  function Run(m: Machine, s: State, n: int): Option<State>
    decreases n
  {
    if n <= 0 then Some(s)
    else
      var o := Step(m, s);
      if o.Went? then Run(m, o.s, n - 1) else None
  }
}
