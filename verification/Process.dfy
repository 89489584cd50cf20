/** A process as the interpreter keeps it: its position, counters and stacks are updated in place. Every
    method is proved to do what the function of the same purpose in `Machine` says. */
module Processes {
  import opened Common
  import opened Bytecode
  import opened Values
  import opened Elementwise
  import opened Tokens
  import opened Machine
  import M = Machine

  /** How a step ended. */
  datatype Report = Normal | Terminate(v: Value) | Error_(err: Error) | Panic

  function Told(r: Report, s: State): Outcome {
    match r
    case Normal => Went(s)
    case Terminate(v) => Terminated(v, s)
    case Error_(err) => Failed(err, s)
    case Panic => Stuck
  }

  lemma NoOperands(w: World, ins: Instruction, aft: nat, s: State)
    requires !ins.DupeValue? && !ins.SwapValues? && (Arity(ins).None? || Arity(ins).value > |s.values|)
    ensures M.ExecStack(w, ins, aft, s) == Stuck
  {
    hide Prim, Arity;
  }

  lemma PrimExec(w: World, ins: Instruction, aft: nat, s: State, a: nat)
    requires !ins.DupeValue? && !ins.SwapValues? && Arity(ins) == Some(a) && a <= |s.values|
    ensures var n := |s.values| - a;
            var r := Prim(w, ins, s.values[n..], s.heap);
            M.ExecStack(w, ins, aft, s) ==
              if r.Err? then Failed(r.error, s.(values := s.values[..n]))
              else Went(s.(pos := aft, values := s.values[..n] + r.value.0, heap := r.value.1))
  {
    hide Prim, Arity;
  }

  lemma ReturnExec(w: World, outer: Locals, ins: Instruction, aft: nat, s: State)
    requires s.calls != [] && ins.Return?
    ensures var top := s.calls[|s.calls| - 1];
            var o := M.ExecCall(w, outer, ins, aft, s);
            if |s.values| < top.valueSize + 1 || |s.handlers| < top.handlerSize
              || (|s.calls| > 1 && top.returnTo.None?) then o == Stuck
            else
              var v := s.values[|s.values| - 1];
              var cut := s.(warp := top.warp, values := s.values[..top.valueSize],
                            handlers := s.handlers[..top.handlerSize]);
              o == if |s.calls| == 1 then Terminated(v, cut)
                   else Went(cut.(pos := top.returnTo.value, values := cut.values + [v],
                                  calls := s.calls[..|s.calls| - 1]))
  {
    hide LosslessSplit, Capture, DefineAll;
  }

  class Process {
    var pos: nat
    var warpCounter: nat
    var callStack: seq<Frame>
    var valueStack: seq<Value>
    var handlerStack: seq<Handler>
    /** The heap and the closures, which the process shares with the others. */
    var heap: Heap
    var closures: seq<Clo<nat>>
    ghost var turns: nat

    ghost function View(): State
      reads this
    {
      State(pos, warpCounter, callStack, valueStack, handlerStack, heap, closures, turns)
    }

    constructor (start: nat, locals: Locals, heap: Heap, closures: seq<Clo<nat>>)
      ensures View() == Initial(start, locals, heap, closures)
    {
      pos, warpCounter, turns := start, 0, 0;
      callStack := [Frame(None, None, 0, 0, 0, locals)];
      valueStack, handlerStack := [], [];
      this.heap, this.closures := heap, closures;
    }

    method ExecStack(w: World, ins: Instruction, aft: nat) returns (r: Report)
      modifies `pos, `valueStack, `heap
      ensures Told(r, View()) == M.ExecStack(w, ins, aft, old(View()))
    {
      hide M.ExecStack;
      if ins.DupeValue? {
        r := DupeValue(w, ins, aft);
      } else if ins.SwapValues? {
        r := SwapValues(w, ins, aft);
      } else {
        r := ApplyPrim(w, ins, aft);
      }
    }

    method DupeValue(ghost w: World, ins: Instruction, aft: nat) returns (r: Report)
      requires ins.DupeValue?
      modifies `pos, `valueStack
      ensures Told(r, View()) == M.ExecStack(w, ins, aft, old(View()))
    {
      hide Prim, Arity, Consumed;
      var n := |valueStack|;
      if ins.topIndex >= n {
        return Panic;
      }
      valueStack := valueStack + [valueStack[n - 1 - ins.topIndex]];
      pos := aft;
      return Normal;
    }

    method SwapValues(ghost w: World, ins: Instruction, aft: nat) returns (r: Report)
      requires ins.SwapValues?
      modifies `pos, `valueStack
      ensures Told(r, View()) == M.ExecStack(w, ins, aft, old(View()))
    {
      hide Prim, Arity, Consumed;
      var n := |valueStack|;
      if ins.topIndex1 >= n || ins.topIndex2 >= n {
        return Panic;
      }
      var i, j := n - 1 - ins.topIndex1, n - 1 - ins.topIndex2;
      var x := valueStack[i];
      valueStack := valueStack[i := valueStack[j]];
      valueStack := valueStack[j := x];
      pos := aft;
      return Normal;
    }

    /** Takes the operands of an instruction from the stack, and leaves its results there. */
    method ApplyPrim(w: World, ins: Instruction, aft: nat) returns (r: Report)
      requires !ins.DupeValue? && !ins.SwapValues?
      modifies `pos, `valueStack, `heap
      ensures Told(r, View()) == M.ExecStack(w, ins, aft, old(View()))
    {
      hide Prim, Arity;
      var n := |valueStack|;
      var a := Arity(ins);
      if a.None? || a.value > n {
        NoOperands(w, ins, aft, View());
        return Panic;
      }
      hide M.ExecStack;
      PrimExec(w, ins, aft, View(), a.value);
      var args := valueStack[n - a.value..];
      valueStack := valueStack[..n - a.value];
      var res := Prim(w, ins, args, heap);
      if res.Err? {
        return Error_(res.error);
      }
      valueStack := valueStack + res.value.0;
      heap := res.value.1;
      pos := aft;
      return Normal;
    }

    method Pop() returns (v: Value)
      requires valueStack != []
      modifies `valueStack
      ensures v == old(valueStack)[|old(valueStack)| - 1] && valueStack == old(valueStack)[..|old(valueStack)| - 1]
    {
      v := valueStack[|valueStack| - 1];
      valueStack := valueStack[..|valueStack| - 1];
    }

    method ExecJump(ins: Instruction, aft: nat) returns (r: Report)
      modifies `pos, `valueStack, `heap, `warpCounter, `turns
      ensures Told(r, View()) == M.ExecJump(ins, aft, old(View()))
    {
      hide M.ExecJump;
      if ins.ConditionalJump? {
        r := ConditionalJump(ins, aft);
      } else if ins.ListPopFirstOrElse? {
        r := ListPopFirst(ins, aft);
      } else {
        r := Move(ins, aft);
      }
    }

    method Move(ins: Instruction, aft: nat) returns (r: Report)
      requires !ins.ConditionalJump? && !ins.ListPopFirstOrElse?
      modifies `pos, `warpCounter, `turns
      ensures Told(r, View()) == M.ExecJump(ins, aft, old(View()))
    {
      if ins.Jump? {
        pos := ins.to;
      } else if ins.Yield? {
        pos := aft;
        turns := turns + if warpCounter == 0 then 1 else 0;
      } else if ins.WarpStart? {
        warpCounter := warpCounter + 1;
        pos := aft;
      } else if ins.WarpStop? && warpCounter > 0 {
        warpCounter := warpCounter - 1;
        pos := aft;
      } else {
        return Panic;
      }
      return Normal;
    }

    method ConditionalJump(ins: Instruction, aft: nat) returns (r: Report)
      requires ins.ConditionalJump?
      modifies `pos, `valueStack
      ensures Told(r, View()) == M.ExecJump(ins, aft, old(View()))
    {
      if valueStack == [] {
        return Panic;
      }
      var value := Pop();
      var b := AsBool(value);
      if b.Err? {
        return Error_(b.error);
      }
      pos := if b.value == ins.when_ then ins.to else aft;
      return Normal;
    }

    method ListPopFirst(ins: Instruction, aft: nat) returns (r: Report)
      requires ins.ListPopFirstOrElse?
      modifies `pos, `valueStack, `heap
      ensures Told(r, View()) == M.ExecJump(ins, aft, old(View()))
    {
      hide Items, SetItems;
      if valueStack == [] {
        return Panic;
      }
      var value := Pop();
      var list := AsList(value);
      if list.Err? {
        return Error_(list.error);
      }
      var items := Items(heap.lists, list.value);
      if items == [] {
        pos := ins.goto;
      } else {
        heap := heap.(lists := SetItems(heap.lists, list.value, items[1..]));
        valueStack := valueStack + [items[0]];
        pos := aft;
      }
      return Normal;
    }

    method ExecVariable(w: World, outer: Locals, ins: Instruction, aft: nat) returns (r: Report)
      requires callStack != []
      modifies `pos, `valueStack, `heap, `callStack
      ensures Told(r, View()) == M.ExecVariable(w, outer, ins, aft, old(View()))
    {
      hide M.ExecVariable;
      if ins.Assign? {
        r := Assign(w, outer, ins, aft);
      } else if ins.BinaryOpAssign? {
        r := BinaryOpAssign(w, outer, ins, aft);
      } else if ins.InitUpvar? {
        r := InitUpvar(w, outer, ins, aft);
      } else {
        r := Declare(w, outer, ins, aft);
      }
    }

    method Declare(ghost w: World, outer: Locals, ins: Instruction, aft: nat) returns (r: Report)
      requires callStack != [] && !ins.Assign? && !ins.BinaryOpAssign? && !ins.InitUpvar?
      modifies `pos, `valueStack, `heap, `callStack
      ensures Told(r, View()) == M.ExecVariable(w, outer, ins, aft, old(View()))
    {
      hide BinaryOn, InitUpvarCell, Lookup, Cell;
      var locals := callStack[|callStack| - 1].locals;
      if ins.PushVariable? {
        var c := Lookup(locals, outer, ins.name);
        if c.None? {
          return Error_(UndefinedVariable(ins.name));
        }
        valueStack := valueStack + [Cell(heap.cells, c.value)];
      } else if ins.DeclareLocal? {
        if ins.name !in locals {
          DefineLocal(ins.name, Num(0.0));
        }
      } else {
        return Panic;
      }
      pos := aft;
      return Normal;
    }

    method InitUpvar(w: World, outer: Locals, ins: Instruction, aft: nat) returns (r: Report)
      requires callStack != [] && ins.InitUpvar?
      modifies `pos, `callStack
      ensures Told(r, View()) == M.ExecVariable(w, outer, ins, aft, old(View()))
    {
      hide BinaryOn, InitUpvarCell, Lookup;
      var locals := callStack[|callStack| - 1].locals;
      var parent := if |callStack| > 1 then Some(callStack[|callStack| - 2].locals) else None;
      var linked := InitUpvarCell(w, ins.name, locals, outer, parent, heap);
      if linked.Err? {
        return Error_(linked.error);
      }
      callStack := WithLocals(callStack, linked.value);
      pos := aft;
      return Normal;
    }

    method Assign(ghost w: World, outer: Locals, ins: Instruction, aft: nat) returns (r: Report)
      requires callStack != [] && ins.Assign?
      modifies `pos, `valueStack, `heap
      ensures Told(r, View()) == M.ExecVariable(w, outer, ins, aft, old(View()))
    {
      hide BinaryOn, InitUpvarCell, Lookup, SetCell;
      if valueStack == [] {
        return Panic;
      }
      var value := Pop();
      var c := Lookup(callStack[|callStack| - 1].locals, outer, ins.name);
      if c.None? {
        return Error_(UndefinedVariable(ins.name));
      }
      heap := heap.(cells := SetCell(heap.cells, c.value, value));
      pos := aft;
      return Normal;
    }

    method BinaryOpAssign(w: World, outer: Locals, ins: Instruction, aft: nat) returns (r: Report)
      requires callStack != [] && ins.BinaryOpAssign?
      modifies `pos, `valueStack, `heap
      ensures Told(r, View()) == M.ExecVariable(w, outer, ins, aft, old(View()))
    {
      hide BinaryOn, InitUpvarCell, Lookup, SetCell, Cell;
      if valueStack == [] {
        return Panic;
      }
      var value := Pop();
      var c := Lookup(callStack[|callStack| - 1].locals, outer, ins.name);
      if c.None? {
        return Error_(UndefinedVariable(ins.name));
      }
      var res := BinaryOn(w, ins.bop, Cell(heap.cells, c.value), value, heap.lists);
      if res.Err? {
        return Error_(res.error);
      }
      heap := Heap(SetCell(heap.cells, c.value, res.value.0), res.value.1);
      pos := aft;
      return Normal;
    }

    /** (Re)defines a variable of the innermost call. */
    method DefineLocal(name: Str, value: Value)
      requires callStack != []
      modifies `callStack, `heap
      ensures var (l, h) := Define(old(callStack)[|old(callStack)| - 1].locals, old(heap), name, value);
              callStack == WithLocals(old(callStack), l) && heap == h
    {
      var top := callStack[|callStack| - 1];
      callStack := WithLocals(callStack, top.locals[name := |heap.cells|]);
      heap := heap.(cells := heap.cells + [value]);
    }

    /** Binds the parameters of a call, one after the other, and enters it. */
    method Enter(target: nat, aft: nat, captures: Locals, params: seq<Str>, args: seq<Value>)
      requires |params| == |args|
      modifies `pos, `callStack, `heap
      ensures var (l, h) := DefineAll(captures, old(heap), params, args);
              View() == M.Enter(old(View()), aft, target, valueStack, l, h)
    {
      var locals: Locals := captures;
      assert params[0..] == params && args[0..] == args;
      for i := 0 to |params|
        invariant DefineAll(locals, heap, params[i..], args[i..]) == DefineAll(captures, old(heap), params, args)
        invariant pos == old(pos) && callStack == old(callStack)
      {
        assert params[i..][1..] == params[i + 1..] && args[i..][1..] == args[i + 1..];
        locals := locals[params[i] := |heap.cells|];
        heap := heap.(cells := heap.cells + [args[i]]);
      }
      callStack := callStack + [Frame(Some(pos), Some(aft), warpCounter, |valueStack|, |handlerStack|, locals)];
      pos := target;
    }

    method ExecCall(w: World, outer: Locals, ins: Instruction, aft: nat) returns (r: Report)
      requires callStack != []
      modifies this
      ensures Told(r, View()) == M.ExecCall(w, outer, ins, aft, old(View()))
    {
      hide M.ExecCall;
      if ins.Call? {
        r := Call(w, outer, ins, aft);
      } else if ins.MakeClosure? {
        r := MakeClosure(w, outer, ins, aft);
      } else if ins.CallClosure? {
        r := CallClosure(w, outer, ins, aft);
      } else if ins.Return? {
        r := Return(w, outer, ins, aft);
      } else {
        r := Guard(w, outer, ins, aft);
      }
    }

    method Guard(ghost w: World, ghost outer: Locals, ins: Instruction, aft: nat) returns (r: Report)
      requires callStack != [] && !ins.Call? && !ins.MakeClosure? && !ins.CallClosure? && !ins.Return?
      modifies `pos, `handlerStack
      ensures Told(r, View()) == M.ExecCall(w, outer, ins, aft, old(View()))
    {
      hide LosslessSplit, Capture, DefineAll;
      if ins.PushHandler? {
        handlerStack := handlerStack + [Handler(ins.pos, ins.name, warpCounter, |callStack|, |valueStack|)];
      } else if ins.PopHandler? && handlerStack != [] {
        handlerStack := handlerStack[..|handlerStack| - 1];
      } else {
        return Panic;
      }
      pos := aft;
      return Normal;
    }

    method Call(w: World, ghost outer: Locals, ins: Instruction, aft: nat) returns (r: Report)
      requires callStack != [] && ins.Call?
      modifies `pos, `valueStack, `callStack, `heap
      ensures Told(r, View()) == M.ExecCall(w, outer, ins, aft, old(View()))
    {
      hide LosslessSplit, Capture, DefineAll;
      if |callStack| >= w.maxCallDepth {
        return Error_(CallDepthLimit(w.maxCallDepth));
      }
      var params := LosslessSplit(ins.tokens);
      if |params| > |valueStack| {
        return Panic;
      }
      var n := |valueStack| - |params|;
      var args := valueStack[n..];
      valueStack := valueStack[..n];
      Enter(ins.pos, aft, map[], params, args);
      return Normal;
    }

    method MakeClosure(ghost w: World, outer: Locals, ins: Instruction, aft: nat) returns (r: Report)
      requires callStack != [] && ins.MakeClosure?
      modifies `pos, `valueStack, `closures
      ensures Told(r, View()) == M.ExecCall(w, outer, ins, aft, old(View()))
    {
      hide LosslessSplit, Capture, DefineAll;
      var names := LosslessSplit(ins.tokens);
      if ins.params > |names| {
        return Panic;
      }
      var caps := Capture(callStack[|callStack| - 1].locals, outer, names[ins.params..]);
      if caps.Err? {
        return Error_(caps.error);
      }
      valueStack := valueStack + [Closure(|closures|)];
      closures := closures + [Clo(ins.pos, names[..ins.params], caps.value)];
      pos := aft;
      return Normal;
    }

    method CallClosure(ghost w: World, ghost outer: Locals, ins: Instruction, aft: nat) returns (r: Report)
      requires callStack != [] && ins.CallClosure?
      modifies `pos, `callStack, `valueStack, `heap
      ensures Told(r, View()) == M.ExecCall(w, outer, ins, aft, old(View()))
    {
      hide LosslessSplit, Capture, DefineAll;
      var args := ins.args;
      if ins.newEntity || args + 1 > |valueStack| {
        return Panic;
      }
      var n := |valueStack| - (args + 1);
      var values := valueStack[n..];
      valueStack := valueStack[..n];
      var f := values[0];
      if !f.Closure? || f.id >= |closures| {
        return Error_(Conversion(TypeOf(f), ClosureT));
      }
      var c := closures[f.id];
      if |c.params| != args {
        return Error_(ClosureArgCount(|c.params|, args));
      }
      assert values[1..] == old(valueStack)[n + 1..];
      Enter(c.code, aft, c.captures, c.params, values[1..]);
      return Normal;
    }

    method Return(ghost w: World, ghost outer: Locals, ins: Instruction, ghost aft: nat) returns (r: Report)
      requires callStack != [] && ins.Return?
      modifies `pos, `warpCounter, `valueStack, `handlerStack, `callStack
      ensures Told(r, View()) == M.ExecCall(w, outer, ins, aft, old(View()))
    {
      hide M.ExecCall;
      ReturnExec(w, outer, ins, aft, View());
      var top := callStack[|callStack| - 1];
      if |valueStack| < top.valueSize + 1 || |handlerStack| < top.handlerSize {
        return Panic;
      }
      var value := Pop();
      warpCounter := top.warp;
      valueStack := valueStack[..top.valueSize];
      handlerStack := handlerStack[..top.handlerSize];
      if |callStack| == 1 {
        return Terminate(value);
      }
      if top.returnTo.None? {
        return Panic;
      }
      pos := top.returnTo.value;
      valueStack := valueStack + [value];
      callStack := callStack[..|callStack| - 1];
      return Normal;
    }

    /** Executes one instruction. */
    method StepImpl(m: Machine) returns (r: Report)
      modifies this
      ensures Told(r, View()) == M.StepImpl(m, old(View()))
    {
      hide M.ExecStack, M.ExecJump, M.ExecVariable, M.ExecCall, Arity, Fetch;
      var f := Fetch(m.program, pos);
      if f.None? || callStack == [] {
        return Panic;
      }
      var (ins, aft) := f.value;
      if ins.DupeValue? || ins.SwapValues? || Arity(ins).Some? {
        r := ExecStack(m.w, ins, aft);
      } else if ins.Jump? || ins.ConditionalJump? || ins.ListPopFirstOrElse? || ins.Yield? || ins.WarpStart?
        || ins.WarpStop? {
        r := ExecJump(ins, aft);
      } else if ins.PushVariable? || ins.DeclareLocal? || ins.InitUpvar? || ins.Assign? || ins.BinaryOpAssign? {
        r := ExecVariable(m.w, m.outer, ins, aft);
      } else {
        r := ExecCall(m.w, m.outer, ins, aft);
      }
    }

    /** One step: an instruction, and if it failed, recovery at the innermost handler. */
    method Step(m: Machine) returns (r: Report)
      modifies this
      ensures Told(r, View()) == M.Step(m, old(View()))
    {
      hide M.StepImpl, Message;
      r := StepImpl(m);
      if r.Error_? && handlerStack != [] {
        var h := handlerStack[|handlerStack| - 1];
        if h.callSize == 0 || h.callSize > |callStack| || h.valueSize > |valueStack| {
          return Panic;
        }
        warpCounter := h.warp;
        callStack := callStack[..h.callSize];
        valueStack := valueStack[..h.valueSize];
        DefineLocal(h.name, Txt(Message(m.w, r.err)));
        pos := h.pos;
        r := Normal;
      }
    }
  }
}
