/** Running linked bytes is running the instructions they stand for: every step of the one is the step
    of the other, with code addresses in place of instruction numbers. */
module LinkedRuns {
  import opened Common
  import opened Bytecode
  import opened Codec
  import opened Layout
  import opened LinkedCode
  import opened Values
  import opened Elementwise
  import opened Machine
  import opened Tokens
  import opened Source
  import opened Simulation
  import opened Compiled

  /** Where instruction `i` starts, or where the code ends. */
  function PlaceOf(positions: seq<nat>, size: int, i: nat): nat {
    if i < |positions| then positions[i] else if size < 0 then 0 else size
  }

  function MoveOption(positions: seq<nat>, size: int, o: Option<nat>): Option<nat> {
    match o case Some(i) => Some(PlaceOf(positions, size, i)) case None => None
  }

  function MoveFrames(positions: seq<nat>, size: int, fs: seq<Frame>): (r: seq<Frame>)
    ensures |r| == |fs|
    ensures forall i :: 0 <= i < |fs| ==>
              r[i] == fs[i].(calledFrom := MoveOption(positions, size, fs[i].calledFrom),
                             returnTo := MoveOption(positions, size, fs[i].returnTo))
  {
    seq(|fs|, i requires 0 <= i < |fs| =>
      fs[i].(calledFrom := MoveOption(positions, size, fs[i].calledFrom),
             returnTo := MoveOption(positions, size, fs[i].returnTo)))
  }

  function MoveHandlers(positions: seq<nat>, size: int, hs: seq<Handler>): (r: seq<Handler>)
    ensures |r| == |hs|
    ensures forall i :: 0 <= i < |hs| ==> r[i] == hs[i].(pos := PlaceOf(positions, size, hs[i].pos))
  {
    seq(|hs|, i requires 0 <= i < |hs| => hs[i].(pos := PlaceOf(positions, size, hs[i].pos)))
  }

  function MoveClosures(positions: seq<nat>, size: int, cs: seq<Clo<nat>>): (r: seq<Clo<nat>>)
    ensures |r| == |cs|
    ensures forall i :: 0 <= i < |cs| ==> r[i] == cs[i].(code := PlaceOf(positions, size, cs[i].code))
  {
    seq(|cs|, i requires 0 <= i < |cs| => cs[i].(code := PlaceOf(positions, size, cs[i].code)))
  }

  /** The same process over bytes. */
  function Move(positions: seq<nat>, size: int, s: State): State {
    s.(pos := PlaceOf(positions, size, s.pos), calls := MoveFrames(positions, size, s.calls),
       handlers := MoveHandlers(positions, size, s.handlers), closures := MoveClosures(positions, size, s.closures))
  }

  function MoveOutcome(positions: seq<nat>, size: int, o: Outcome): Outcome {
    match o
    case Went(s) => Went(Move(positions, size, s))
    case Terminated(v, s) => Terminated(v, Move(positions, size, s))
    case Failed(err, s) => Failed(err, Move(positions, size, s))
    case Stuck => Stuck
  }

  lemma LinkableAims(ins: Instruction, n: nat)
    requires TargetsBelow(Operands(ins), n)
    ensures Aims(ins, n)
  {
    if ins.ListPopFirstOrElse? {
      assert Operands(ins)[0] == Address(ins.goto);
    } else if ins.Jump? {
      assert Operands(ins)[0] == Address(ins.to);
    } else if ins.ConditionalJump? {
      assert Operands(ins)[0] == Address(ins.to);
    } else if ins.Call? {
      assert Operands(ins)[0] == Address(ins.pos);
    } else if ins.MakeClosure? {
      assert Operands(ins)[0] == Address(ins.pos);
    } else if ins.PushHandler? {
      assert Operands(ins)[0] == Address(ins.pos);
    }
  }

  // ----- one instruction -----

  lemma StackMoves(w: World, ins: Instruction, aft: nat, s: State, positions: seq<nat>, size: nat)
    ensures ExecStack(w, ins, PlaceOf(positions, size, aft), Move(positions, size, s))
            == MoveOutcome(positions, size, ExecStack(w, ins, aft, s))
  {
    hide OnStack, Consumed;
  }

  lemma BranchMoves(ins: Instruction, aft: nat, s: State, positions: seq<nat>, size: nat)
    requires Aims(ins, |positions|) && ins.ConditionalJump?
    ensures ExecJump(Retarget(ins, positions), PlaceOf(positions, size, aft), Move(positions, size, s))
            == MoveOutcome(positions, size, ExecJump(ins, aft, s))
  {
    hide AsList, AsBool, Items, SetItems, MoveFrames, MoveHandlers, MoveClosures;
  }

  lemma PopFirstMoves(ins: Instruction, aft: nat, s: State, positions: seq<nat>, size: nat)
    requires Aims(ins, |positions|) && ins.ListPopFirstOrElse?
    ensures ExecJump(Retarget(ins, positions), PlaceOf(positions, size, aft), Move(positions, size, s))
            == MoveOutcome(positions, size, ExecJump(ins, aft, s))
  {
    hide AsList, AsBool, Items, SetItems, MoveFrames, MoveHandlers, MoveClosures;
  }

  lemma PlainJumpMoves(ins: Instruction, aft: nat, s: State, positions: seq<nat>, size: nat)
    requires Aims(ins, |positions|) && !ins.ConditionalJump? && !ins.ListPopFirstOrElse?
    ensures ExecJump(Retarget(ins, positions), PlaceOf(positions, size, aft), Move(positions, size, s))
            == MoveOutcome(positions, size, ExecJump(ins, aft, s))
  {
    hide AsList, AsBool, Items, SetItems, MoveFrames, MoveHandlers, MoveClosures;
  }

  lemma JumpMoves(ins: Instruction, aft: nat, s: State, positions: seq<nat>, size: nat)
    requires Aims(ins, |positions|)
    ensures ExecJump(Retarget(ins, positions), PlaceOf(positions, size, aft), Move(positions, size, s))
            == MoveOutcome(positions, size, ExecJump(ins, aft, s))
  {
    hide *;
    if ins.ConditionalJump? {
      BranchMoves(ins, aft, s, positions, size);
    } else if ins.ListPopFirstOrElse? {
      PopFirstMoves(ins, aft, s, positions, size);
    } else {
      PlainJumpMoves(ins, aft, s, positions, size);
    }
  }

  lemma LocalsMove(positions: seq<nat>, size: nat, calls: seq<Frame>, locals: Locals)
    requires calls != []
    ensures MoveFrames(positions, size, WithLocals(calls, locals))
            == WithLocals(MoveFrames(positions, size, calls), locals)
  {
  }

  lemma MoveTop(positions: seq<nat>, size: nat, s: State)
    requires s.calls != []
    ensures TopLocals(Move(positions, size, s)) == TopLocals(s)
  {
  }

  lemma DeclareMoves(w: World, outer: Locals, ins: Instruction, aft: nat, s: State, positions: seq<nat>, size: nat)
    requires s.calls != [] && ins.DeclareLocal?
    ensures ExecVariable(w, outer, ins, PlaceOf(positions, size, aft), Move(positions, size, s))
            == MoveOutcome(positions, size, ExecVariable(w, outer, ins, aft, s))
  {
    hide Lookup, InitUpvarCell, Define, WithLocals, MoveFrames, MoveHandlers, MoveClosures, TopLocals;
    MoveTop(positions, size, s);
    LocalsMove(positions, size, s.calls, Define(TopLocals(s), s.heap, ins.name, Num(0.0)).0);
  }

  lemma UpvarMoves(w: World, outer: Locals, ins: Instruction, aft: nat, s: State, positions: seq<nat>, size: nat)
    requires s.calls != [] && ins.InitUpvar?
    ensures ExecVariable(w, outer, ins, PlaceOf(positions, size, aft), Move(positions, size, s))
            == MoveOutcome(positions, size, ExecVariable(w, outer, ins, aft, s))
  {
    hide Lookup, InitUpvarCell, Define, WithLocals, BinaryOn;
    var locals := TopLocals(s);
    MoveTop(positions, size, s);
    var parent := if |s.calls| > 1 then Some(s.calls[|s.calls| - 2].locals) else None;
    var r := InitUpvarCell(w, ins.name, locals, outer, parent, s.heap);
    if r.Ok? {
      LocalsMove(positions, size, s.calls, r.value);
    }
  }

  lemma VariableMoves(w: World, outer: Locals, ins: Instruction, aft: nat, s: State, positions: seq<nat>, size: nat)
    requires s.calls != [] && !ins.DeclareLocal? && !ins.InitUpvar?
    ensures ExecVariable(w, outer, ins, PlaceOf(positions, size, aft), Move(positions, size, s))
            == MoveOutcome(positions, size, ExecVariable(w, outer, ins, aft, s))
  {
    hide Lookup, Cell, SetCell, BinaryOn, InitUpvarCell, Define, WithLocals, MoveFrames, MoveHandlers, MoveClosures;
    hide TopLocals;
    LocalsMoved(s, positions, size);
  }

  lemma LocalsMoved(s: State, positions: seq<nat>, size: nat)
    ensures TopLocals(Move(positions, size, s)) == TopLocals(s)
  {
    hide MoveHandlers, MoveClosures;
  }

  lemma EnterMoves(s: State, aft: nat, pos: nat, values: seq<Value>, locals: Locals, heap: Heap, positions: seq<nat>,
                   size: nat)
    ensures Enter(Move(positions, size, s), PlaceOf(positions, size, aft), PlaceOf(positions, size, pos), values,
                  locals, heap)
            == Move(positions, size, Enter(s, aft, pos, values, locals, heap))
  {
    var f := Frame(Some(s.pos), Some(aft), s.warp, |values|, |s.handlers|, locals);
    assert MoveFrames(positions, size, s.calls + [f])
           == MoveFrames(positions, size, s.calls)
               + [f.(calledFrom := Some(PlaceOf(positions, size, s.pos)),
                     returnTo := Some(PlaceOf(positions, size, aft)))];
  }

  lemma CallMoves(w: World, outer: Locals, ins: Instruction, aft: nat, s: State, positions: seq<nat>, size: nat)
    requires s.calls != [] && Aims(ins, |positions|) && ins.Call?
    ensures ExecCall(w, outer, Retarget(ins, positions), PlaceOf(positions, size, aft), Move(positions, size, s))
            == MoveOutcome(positions, size, ExecCall(w, outer, ins, aft, s))
  {
    hide DefineAll, Capture, Enter, LosslessSplit;
    var params := LosslessSplit(ins.tokens);
    if |s.calls| < w.maxCallDepth && |params| <= |s.values| {
      var n := |s.values| - |params|;
      var (l, h) := DefineAll(map[], s.heap, params, s.values[n..]);
      EnterMoves(s, aft, ins.pos, s.values[..n], l, h, positions, size);
    }
  }

  lemma ClosureCallMoves(w: World, outer: Locals, ins: Instruction, aft: nat, s: State, positions: seq<nat>, size: nat)
    requires s.calls != [] && Aims(ins, |positions|) && ins.CallClosure?
    ensures ExecCall(w, outer, Retarget(ins, positions), PlaceOf(positions, size, aft), Move(positions, size, s))
            == MoveOutcome(positions, size, ExecCall(w, outer, ins, aft, s))
  {
    hide DefineAll, Capture, Enter, LosslessSplit, MoveFrames, MoveHandlers;
    if !ins.newEntity && ins.args + 1 <= |s.values| {
      var n := |s.values| - (ins.args + 1);
      var f := s.values[n];
      if f.Closure? && f.id < |s.closures| && |s.closures[f.id].params| == ins.args {
        var c := s.closures[f.id];
        var (l, h) := DefineAll(c.captures, s.heap, c.params, s.values[n + 1..]);
        EnterMoves(s, aft, c.code, s.values[..n], l, h, positions, size);
      }
    }
  }

  lemma ReturnMoves(w: World, outer: Locals, ins: Instruction, aft: nat, s: State, positions: seq<nat>, size: nat)
    requires s.calls != [] && Aims(ins, |positions|) && ins.Return?
    ensures ExecCall(w, outer, Retarget(ins, positions), PlaceOf(positions, size, aft), Move(positions, size, s))
            == MoveOutcome(positions, size, ExecCall(w, outer, ins, aft, s))
  {
    hide DefineAll, Capture, Enter, LosslessSplit, MoveClosures;
    var t := Move(positions, size, s);
    var top := s.calls[|s.calls| - 1];
    var fs := s.calls[..|s.calls| - 1];
    assert MoveFrames(positions, size, fs) == t.calls[..|t.calls| - 1];
    if top.handlerSize <= |s.handlers| {
      assert MoveHandlers(positions, size, s.handlers[..top.handlerSize]) == t.handlers[..top.handlerSize];
    }
  }

  lemma ClosureAdded(positions: seq<nat>, size: nat, cs: seq<Clo<nat>>, k: Clo<nat>)
    ensures MoveClosures(positions, size, cs + [k])
            == MoveClosures(positions, size, cs) + [k.(code := PlaceOf(positions, size, k.code))]
  {
  }

  lemma MakeClosureMoves(w: World, outer: Locals, ins: Instruction, aft: nat, s: State, positions: seq<nat>, size: nat)
    requires s.calls != [] && Aims(ins, |positions|) && ins.MakeClosure?
    ensures ExecCall(w, outer, Retarget(ins, positions), PlaceOf(positions, size, aft), Move(positions, size, s))
            == MoveOutcome(positions, size, ExecCall(w, outer, ins, aft, s))
  {
    hide DefineAll, Capture, Enter, LosslessSplit, MoveHandlers, MoveFrames, MoveClosures, TopLocals;
    MoveTop(positions, size, s);
    var t := Move(positions, size, s);
    var names := LosslessSplit(ins.tokens);
    if ins.params <= |names| {
      var caps := Capture(TopLocals(s), outer, names[ins.params..]);
      if caps.Ok? {
        ClosureAdded(positions, size, s.closures, Clo(ins.pos, names[..ins.params], caps.value));
      }
    }
  }

  lemma PushHandlerMoves(w: World, outer: Locals, ins: Instruction, aft: nat, s: State, positions: seq<nat>, size: nat)
    requires s.calls != [] && Aims(ins, |positions|) && ins.PushHandler?
    ensures ExecCall(w, outer, Retarget(ins, positions), PlaceOf(positions, size, aft), Move(positions, size, s))
            == MoveOutcome(positions, size, ExecCall(w, outer, ins, aft, s))
  {
    hide DefineAll, Capture, Enter, LosslessSplit, MoveClosures, MoveFrames;
    var t := Move(positions, size, s);
    var h := Handler(ins.pos, ins.name, s.warp, |s.calls|, |s.values|);
    assert MoveHandlers(positions, size, s.handlers + [h])
           == t.handlers + [h.(pos := PlaceOf(positions, size, ins.pos))];
  }

  lemma PopHandlerMoves(w: World, outer: Locals, ins: Instruction, aft: nat, s: State, positions: seq<nat>, size: nat)
    requires s.calls != [] && Aims(ins, |positions|) && ins.PopHandler?
    ensures ExecCall(w, outer, Retarget(ins, positions), PlaceOf(positions, size, aft), Move(positions, size, s))
            == MoveOutcome(positions, size, ExecCall(w, outer, ins, aft, s))
  {
    hide DefineAll, Capture, Enter, LosslessSplit, MoveClosures, MoveFrames;
    var t := Move(positions, size, s);
    if s.handlers != [] {
      assert MoveHandlers(positions, size, s.handlers[..|s.handlers| - 1]) == t.handlers[..|t.handlers| - 1];
    }
  }

  /** Instructions of the other groups are not calls, before or after linking. */
  lemma NoCallMoves(w: World, outer: Locals, ins: Instruction, aft: nat, s: State, aft': nat, t: State,
                    positions: seq<nat>)
    requires s.calls != [] && t.calls != []
    requires !ins.Call? && !ins.CallClosure? && !ins.Return? && !ins.MakeClosure? && !ins.PushHandler?
             && !ins.PopHandler?
    ensures ExecCall(w, outer, ins, aft, s) == Stuck && ExecCall(w, outer, Retarget(ins, positions), aft', t) == Stuck
  {
  }

  lemma AnyCallMoves(w: World, outer: Locals, ins: Instruction, aft: nat, s: State, positions: seq<nat>, size: nat)
    requires s.calls != [] && Aims(ins, |positions|)
    ensures ExecCall(w, outer, Retarget(ins, positions), PlaceOf(positions, size, aft), Move(positions, size, s))
            == MoveOutcome(positions, size, ExecCall(w, outer, ins, aft, s))
  {
    hide ExecCall, Retarget, Aims, MoveFrames, MoveHandlers, MoveClosures;
    if ins.Call? {
      CallMoves(w, outer, ins, aft, s, positions, size);
    } else if ins.CallClosure? {
      ClosureCallMoves(w, outer, ins, aft, s, positions, size);
    } else if ins.Return? {
      ReturnMoves(w, outer, ins, aft, s, positions, size);
    } else if ins.MakeClosure? {
      MakeClosureMoves(w, outer, ins, aft, s, positions, size);
    } else if ins.PushHandler? {
      PushHandlerMoves(w, outer, ins, aft, s, positions, size);
    } else if ins.PopHandler? {
      PopHandlerMoves(w, outer, ins, aft, s, positions, size);
    } else {
      NoCallMoves(w, outer, ins, aft, s, PlaceOf(positions, size, aft), Move(positions, size, s), positions);
    }
  }

  lemma AnyVariableMoves(w: World, outer: Locals, ins: Instruction, aft: nat, s: State, positions: seq<nat>, size: nat)
    requires s.calls != []
    ensures ExecVariable(w, outer, ins, PlaceOf(positions, size, aft), Move(positions, size, s))
            == MoveOutcome(positions, size, ExecVariable(w, outer, ins, aft, s))
  {
    hide ExecVariable, MoveFrames, MoveHandlers, MoveClosures;
    if ins.DeclareLocal? {
      DeclareMoves(w, outer, ins, aft, s, positions, size);
    } else if ins.InitUpvar? {
      UpvarMoves(w, outer, ins, aft, s, positions, size);
    } else {
      VariableMoves(w, outer, ins, aft, s, positions, size);
    }
  }

  /** Which part of the interpreter an instruction belongs to. */
  function Group(ins: Instruction): nat {
    if ins.DupeValue? || ins.SwapValues? || Arity(ins).Some? then 0
    else if ins.Jump? || ins.ConditionalJump? || ins.ListPopFirstOrElse? || ins.Yield? || ins.WarpStart?
         || ins.WarpStop? then 1
    else if ins.PushVariable? || ins.DeclareLocal? || ins.InitUpvar? || ins.Assign? || ins.BinaryOpAssign? then 2
    else 3
  }

  lemma ExecGroup(w: World, outer: Locals, ins: Instruction, aft: nat, s: State)
    ensures Exec(w, outer, ins, aft, s) ==
              if s.calls == [] then Stuck
              else if Group(ins) == 0 then ExecStack(w, ins, aft, s)
              else if Group(ins) == 1 then ExecJump(ins, aft, s)
              else if Group(ins) == 2 then ExecVariable(w, outer, ins, aft, s)
              else ExecCall(w, outer, ins, aft, s)
  {
    hide ExecStack, ExecJump, ExecVariable, ExecCall, Arity;
  }

  lemma GroupKept(ins: Instruction, positions: seq<nat>)
    ensures Group(Retarget(ins, positions)) == Group(ins)
    ensures Group(ins) == 0 || Group(ins) == 2 ==> Retarget(ins, positions) == ins
  {
  }

  lemma MoveShape(positions: seq<nat>, size: nat, s: State)
    ensures s.calls == [] <==> Move(positions, size, s).calls == []
    ensures MoveOutcome(positions, size, Stuck) == Stuck
  {
  }

  lemma ExecMoves(w: World, outer: Locals, ins: Instruction, aft: nat, s: State, positions: seq<nat>, size: nat)
    requires Aims(ins, |positions|)
    ensures Exec(w, outer, Retarget(ins, positions), PlaceOf(positions, size, aft), Move(positions, size, s))
            == MoveOutcome(positions, size, Exec(w, outer, ins, aft, s))
  {
    hide *;
    ExecGroup(w, outer, ins, aft, s);
    ExecGroup(w, outer, Retarget(ins, positions), PlaceOf(positions, size, aft), Move(positions, size, s));
    GroupKept(ins, positions);
    MoveShape(positions, size, s);
    if s.calls != [] {
      if Group(ins) == 0 {
        StackMoves(w, ins, aft, s, positions, size);
      } else if Group(ins) == 1 {
        JumpMoves(ins, aft, s, positions, size);
      } else if Group(ins) == 2 {
        AnyVariableMoves(w, outer, ins, aft, s, positions, size);
      } else {
        AnyCallMoves(w, outer, ins, aft, s, positions, size);
      }
    }
  }

  lemma UnwindMoves(w: World, err: Error, s: State, positions: seq<nat>, size: nat)
    ensures Unwind(w, err, Move(positions, size, s)) == MoveOutcome(positions, size, Unwind(w, err, s))
  {
    hide Message, Define, WithLocals;
    if s.handlers != [] {
      var h := s.handlers[|s.handlers| - 1];
      if 0 < h.callSize <= |s.calls| && h.valueSize <= |s.values| {
        var calls := s.calls[..h.callSize];
        assert MoveFrames(positions, size, calls) == Move(positions, size, s).calls[..h.callSize];
        LocalsMove(positions, size, calls,
                   Define(calls[h.callSize - 1].locals, s.heap, h.name, Txt(Message(w, err))).0);
      }
    }
  }

  function Bytes(I: Image, code: seq<Byte>, data: seq<Byte>): Machine {
    I.M().(program := Binary_(code, data))
  }

  ghost predicate LinksTo(I: Image, code: seq<Byte>, data: seq<Byte>, positions: seq<nat>) {
    Linkable(I.ins) && Represents(I.ins, code, data, positions)
  }

  lemma FetchMoves(I: Image, code: seq<Byte>, data: seq<Byte>, positions: seq<nat>, i: nat)
    requires LinksTo(I, code, data, positions) && i < |I.ins|
    ensures Aims(I.ins[i], |positions|)
    ensures ReadInstruction(code, data, PlaceOf(positions, |code|, i))
            == Some((Retarget(I.ins[i], positions), PlaceOf(positions, |code|, i + 1)))
  {
    hide ReadInstruction, Retarget, Aims, Operands;
    LinkableAims(I.ins[i], |I.ins|);
    assert PlaceOf(positions, |code|, i + 1) == EndOf(positions, i, |code|);
  }

  lemma StepMoves(I: Image, code: seq<Byte>, data: seq<Byte>, positions: seq<nat>, s: State)
    requires LinksTo(I, code, data, positions) && s.pos < |I.ins|
    ensures Step(Bytes(I, code, data), Move(positions, |code|, s)) == MoveOutcome(positions, |code|, Step(I.M(), s))
  {
    hide Exec, ReadInstruction, Unwind, Retarget, Aims, LinksTo, MoveFrames, MoveHandlers, MoveClosures;
    FetchMoves(I, code, data, positions, s.pos);
    ExecMoves(I.p.w, I.p.outer, I.ins[s.pos], s.pos + 1, s, positions, |code|);
    var o := StepImpl(I.M(), s);
    if o.Failed? {
      UnwindMoves(I.p.w, o.err, o.s, positions, |code|);
    }
  }

  lemma StepFetches(I: Image, s: State)
    requires !Step(I.M(), s).Stuck?
    ensures s.pos < |I.ins|
  {
    hide Exec, Unwind, ReadInstruction;
  }

  lemma {:induction false} RunMoves(I: Image, code: seq<Byte>, data: seq<Byte>, positions: seq<nat>, s: State, n: nat)
    requires LinksTo(I, code, data, positions)
    ensures match Run(I.M(), s, n)
            case Some(t) => Run(Bytes(I, code, data), Move(positions, |code|, s), n) == Some(Move(positions, |code|, t))
            case None => true
    decreases n
  {
    hide Step, Move, LinksTo;
    if n > 0 && Step(I.M(), s).Went? {
      StepFetches(I, s);
      StepMoves(I, code, data, positions, s);
      RunMoves(I, code, data, positions, Step(I.M(), s).s, n - 1);
    }
  }

  // ----- whole processes -----

  /** The process over bytes, started at the position its script was linked to. */
  function BeginBytes(x: Script, z: Setup, code: seq<Byte>, positions: seq<nat>): State {
    Initial(PlaceOf(positions, |code|, x.entry), z.locals, z.heap, MoveClosures(positions, |code|, z.clo))
  }

  lemma BeginMoves(x: Script, z: Setup, code: seq<Byte>, positions: seq<nat>)
    ensures BeginBytes(x, z, code, positions) == Move(positions, |code|, Begin(x, z))
  {
  }

  /** The process makes `n` steps, and then the given last one, as the evaluator's outcome says; if the evaluator has
      run out of fuel, it is still running after as many steps as there was fuel. */
  ghost predicate Agrees(m: Machine, s: State, fuel: nat, e: Out<Value>, n: nat, last: Outcome) {
    match e
    case OutOfFuel => Run(m, s, fuel).Some?
    case Done(v, st) => LastStep(m, s, n, last) && Returned(last, v, st)
    case Raised(err, st) => LastStep(m, s, n, last) && Halted(last, err, st)
  }

  predicate Returned(last: Outcome, v: Value, st: St) {
    match last
    case Terminated(x, u) => x == v && u.heap == st.heap && u.turns == st.turns && u.values == []
    case _ => false
  }

  predicate Halted(last: Outcome, err: Error, st: St) {
    match last case Failed(x, u) => x == err && u.heap == st.heap && u.turns == st.turns case _ => false
  }

  ghost predicate LastStep(m: Machine, s: State, n: nat, last: Outcome) {
    match Run(m, s, n) case Some(t) => Step(m, t) == last case None => false
  }

  /** The run of a script from the linked bytes agrees with the evaluator. */
  ghost predicate RunAgrees(I: Image, x: Script, z: Setup, code: seq<Byte>, data: seq<Byte>, positions: seq<nat>,
                            fuel: nat, n: nat, last: Outcome) {
    Agrees(Bytes(I, code, data), BeginBytes(x, z, code, positions), fuel, Meaning(I.p, x, z, fuel), n, last)
  }

  /** Compiled and linked: running the bytes gives what the program means, value or error, heap and all. */
  lemma BytesRefine(I: Image, x: Script, z: Setup, code: seq<Byte>, data: seq<Byte>, positions: seq<nat>, fuel: nat)
      returns (n: nat, last: Outcome)
    requires Loaded(I, x, z) && LinksTo(I, code, data, positions)
    ensures RunAgrees(I, x, z, code, data, positions, fuel, n, last)
  {
    hide Loaded, LinksTo, Begin, BeginBytes, Meaning, Run, Step, Move, Tied;
    var u;
    n, u := ProcessRefines(I, x, z, fuel);
    BeginMoves(x, z, code, positions);
    var e := Meaning(I.p, x, z, fuel);
    var s := Begin(x, z);
    if e.OutOfFuel? {
      RunMoves(I, code, data, positions, s, fuel);
      last := Stuck;
    } else {
      RunMoves(I, code, data, positions, s, n);
      var r := Run(I.M(), s, n).value;
      StepFetches(I, r);
      StepMoves(I, code, data, positions, r);
      last := MoveOutcome(positions, |code|, Step(I.M(), r));
      MoveKeeps(positions, |code|, u);
    }
  }

  lemma MoveKeeps(positions: seq<nat>, size: nat, s: State)
    ensures var t := Move(positions, size, s); t.heap == s.heap && t.turns == s.turns && t.values == s.values
  {
  }
}
