/** Operators and calls, from the point where their operands are on the stack. */
module Calls {
  import opened Common
  import opened Bytecode
  import opened Values
  import opened Elementwise
  import opened Machine
  import opened Tokens
  import opened Ast
  import opened Source
  import opened Codegen
  import opened Simulation
  import opened Rounds

  // ----- how many values an operator leaves -----

  predicate Silent(ins: Instruction) {
    ins.PopValue? || ins.ListInsertLast? || ins.ListAssignLast? || ins.ListRemoveLast? || ins.ListRemoveAll?
  }

  predicate LeavesOne(r: Result<(seq<Value>, Heap), Error>) {
    match r case Ok(v) => |v.0| == 1 case Err(_) => true
  }

  predicate LeavesOrNot(ins: Instruction, r: Result<(seq<Value>, Heap), Error>) {
    match r case Ok(v) => |v.0| == (if Silent(ins) then 0 else 1) case Err(_) => true
  }

  lemma {:induction false} FoldLeavesOne(w: World, op: BinaryOp, acc: Value, items: seq<Value>, heap: Heap)
    ensures LeavesOne(FoldBinary(w, op, acc, items, heap))
    decreases |items|
  {
    hide BinaryOn;
    if items != [] {
      var r := BinaryOn(w, op, acc, items[0], heap.lists);
      if r.Ok? {
        FoldLeavesOne(w, op, r.value.0, items[1..], heap.(lists := r.value.1));
      }
    }
  }

  lemma {:induction false} ExtremeLeavesOne(w: World, r: Relation, best: Value, items: seq<Value>, heap: Heap)
    ensures LeavesOne(Extreme(w, r, best, items, heap))
    decreases |items|
  {
    hide Relates;
    if items != [] {
      var b := Relates(w, heap.lists, r, items[0], best);
      if b.Ok? {
        ExtremeLeavesOne(w, r, if b.value then items[0] else best, items[1..], heap);
      }
    }
  }

  lemma CombineLeavesOne(w: World, op: VariadicOp, items: seq<Value>, heap: Heap)
    ensures LeavesOne(Combine(w, op, items, heap))
  {
    hide FoldBinary, Extreme, ConcatLists, UnaryOn;
    if |items| > 0 {
      FoldLeavesOne(w, if op.AddAll? then Add else Mul, items[0], items[1..], heap);
      ExtremeLeavesOne(w, Less, items[0], items[1..], heap);
      ExtremeLeavesOne(w, Greater, items[0], items[1..], heap);
    }
  }

  lemma OnListLeaves(ins: Instruction, args: seq<Value>, heap: Heap)
    requires |args| >= 1 && (ins.ListCons? || ins.ListInsertLast? ==> |args| == 2) && !ins.PopValue?
             && !ins.ListAssignLast?
    requires Arity(ins) == Some(|args|) && !ins.Variadic? && !ins.Binary? && !ins.Unary? && !ins.Cmp?
    ensures ins.ListCons? || ins.ListCdr? || ins.ListIsEmpty? || ins.ListLength? || ins.ListRev? || ins.ListGetLast?
            || Silent(ins)
            ==> LeavesOrNot(ins, OnList(ins, args, heap))
  {
    hide SetItems, Items;
  }

  lemma PrimLeaves(w: World, ins: Instruction, args: seq<Value>, heap: Heap)
    requires Arity(ins) == Some(|args|)
    ensures LeavesOrNot(ins, Prim(w, ins, args, heap))
    ensures ins.Throw? ==> Prim(w, ins, args, heap).Err?
  {
    hide Combine, BinaryOn, UnaryOn, Relates, AsNum, AsTxt, SetItems, Items, OnList;
    if ins.ListCons? || ins.ListCdr? || ins.ListIsEmpty? || ins.ListLength? || ins.ListRev? || ins.ListGetLast?
       || ins.ListInsertLast? || ins.ListRemoveLast? || ins.ListRemoveAll? {
      OnListLeaves(ins, args, heap);
    }
    if ins.Variadic? {
      CombineLeavesOne(w, ins.vop, args, heap);
      if ins.len.Dynamic? && args[0].List? {
        CombineLeavesOne(w, ins.vop, Items(heap.lists, args[0].id), heap);
      }
    }
  }

  lemma OpMeets(I: Image, base: State, pc: nat, floor: seq<Value>, ins: Instruction, args: seq<Value>, st: St,
                clo: seq<Clo<nat>>, fuel: nat) returns (n: nat)
    requires base.calls != [] && Filled(I) && Tied(I, clo, st.closures)
    requires Is(I.slots, pc, ins) && Arity(ins) == Some(|args|) && !Silent(ins)
    ensures Meets(I, base, At(base, pc, floor + args, st, clo), floor, pc + 1, n, clo, fuel,
                  OneGoal(Single(ApplyPrim(I.p, ins, args, st))))
  {
    hide Filled, Tied, Is, Meets, At, Prim, Arity;
    PrimLeaves(I.p.w, ins, args, st.heap);
    n := PrimMeets(I, base, pc, floor, ins, args, st, clo, fuel);
    var r := ApplyPrim(I.p, ins, args, st);
    if r.Done? {
      assert [r.v[0]] == r.v;
    }
  }

  lemma QuietMeets(I: Image, base: State, pc: nat, floor: seq<Value>, ins: Instruction, args: seq<Value>, st: St,
                   clo: seq<Clo<nat>>, fuel: nat) returns (n: nat)
    requires base.calls != [] && Filled(I) && Tied(I, clo, st.closures)
    requires Is(I.slots, pc, ins) && Arity(ins) == Some(|args|) && (Silent(ins) || ins.Throw?)
    ensures Meets(I, base, At(base, pc, floor + args, st, clo), floor, pc + 1, n, clo, fuel,
                  StmtGoal(Quiet(ApplyPrim(I.p, ins, args, st))))
  {
    hide Filled, Tied, Is, Meets, At, Prim, Arity;
    PrimLeaves(I.p.w, ins, args, st.heap);
    n := PrimMeets(I, base, pc, floor, ins, args, st, clo, fuel);
    var r := ApplyPrim(I.p, ins, args, st);
    if r.Done? {
      assert r.v == [];
    }
  }

  // ----- reporting -----

  lemma AboutToReturn(I: Image, s: State, n: nat, base: State, q: nat, floor: seq<Value>, v: Value, st: St,
                      clo: seq<Clo<nat>>, fuel: nat, next: nat)
    requires On(I, s, n, base, q, floor + [v], st, clo) && Is(I.slots, q, Return) && Tied(I, clo, st.closures)
    ensures Meets(I, base, s, floor, next, n, clo, fuel, Done(Reports(v), st))
  {
    hide Step, StepImpl, Tied;
    var values := floor + [v];
    assert values[..|values| - 1] == floor;
  }

  /** A body that falls off its end reports an empty text. */
  lemma FallsOff(I: Image, s: State, n: nat, base: State, q: nat, floor: seq<Value>, st: St, clo: seq<Clo<nat>>,
                 fuel: nat)
    requires Filled(I) && Tied(I, clo, st.closures) && On(I, s, n, base, q, floor, st, clo)
             && Are(I.slots, q, [PushString([]), Return])
    ensures Meets(I, base, s, floor, 0, n + 1, clo, fuel, Done(Reports(Txt([])), st))
  {
    hide Filled, Tied, On, Are, At, Meets, Prim;
    var code := [PushString([]), Return];
    TextPrim(I.p.w, st.heap);
    PrimTo(I, s, n, base, q, code, 0, floor, [], [Txt([])], st.heap, floor, floor + [Txt([])], st, clo);
    AreIs(I.slots, q, code, 1);
    AboutToReturn(I, s, n + 1, base, q + 1, floor, Txt([]), st, clo, fuel, 0);
  }

  lemma {:induction false} UpvarsMeet(I: Image, c: Ctx, base: State, names: seq<Str>, pc: nat, floor: seq<Value>,
                                      st: St, clo: seq<Clo<nat>>, fuel: nat) returns (n: nat)
    requires Ready(I, c, base) && Tied(I, clo, st.closures) && UpvarsAt(I.slots, names, pc)
    ensures match LinkUpvars(I.p, c, names, st)
            case Done(_, s) =>
              On(I, At(base, pc, floor, st, clo), n, base, pc + |names|, floor, s, clo) && s.closures == st.closures
            case Raised(err, s) =>
              && s.closures == st.closures
              && Meets(I, base, At(base, pc, floor, st, clo), floor, 0, n, clo, fuel, Raised(err, s))
            case OutOfFuel => false
    decreases |names|
  {
    hide Filled, Fits, Tied, At, Meets, InitUpvarCell, Step;
    var s := At(base, pc, floor, st, clo);
    n := 0;
    if names != [] {
      assert I.slots[pc + 0] == Ins(InitUpvar(names[0]));
      InitUpvarMeets(I, base, c, pc, floor, names[0], st, clo, fuel);
      var r := InitUpvarCell(I.p.w, names[0], st.locals, I.p.outer, c.parent, st.heap);
      if r.Ok? {
        var st1 := st.(locals := r.value);
        forall i | 0 <= i < |names| - 1 ensures I.slots[pc + 1 + i] == Ins(InitUpvar(names[1..][i])) {
          assert I.slots[pc + (i + 1)] == Ins(InitUpvar(names[i + 1]));
        }
        var m := UpvarsMeet(I, c, base, names[1..], pc + 1, floor, st1, clo, fuel);
        n := 1 + m;
        var o := LinkUpvars(I.p, c, names[1..], st1);
        if o.Done? {
          OnTwo(I, s, 1, base, pc + 1, floor, st1, clo, m, base, pc + |names|, floor, o.st, clo);
        } else {
          OnMeets(I, s, 1, base, pc + 1, floor, st1, clo, base, floor, 0, m, clo, fuel, fuel, Raised(o.err, o.st));
        }
      }
    }
  }

  // ----- entering calls -----

  /** Where a call ends up, if it gets that far. */
  lemma CallEnters(I: Image, c: Ctx, base: State, name: Str, args: seq<Value>, pc: nat, floor: seq<Value>, st: St,
                   clo: seq<Clo<nat>>)
    requires Ready(I, c, base) && Hole(I.slots, pc, CallHole(name, c.ent)) && Callable(I.G(c), name, |args|)
    requires c.depth < I.p.w.maxCallDepth
    ensures match Target(I, c.ent, name)
            case Some(t) =>
              var st1 := Given(t.0, st, args);
              && BlockAt(I, t.0, t.1)
              && On(I, At(base, pc, floor + args, st, clo), 1, Activation(base, pc, floor, st, st1.locals), t.1, floor,
                    st1, clo)
            case None => false
  {
    hide Filled, Fits, Run, ExecCall, Exec, LosslessJoin, DefineAll, Activation, BodyAt;
    CallTarget(I, pc, name, c.ent);
    var (fn, pos) := Target(I, c.ent, name).value;
    var s := At(base, pc, floor + args, st, clo);
    var ins := Call(pos, LosslessJoin(fn.params));
    CallExec(I, base, c, pc, floor, args, pos, fn.params, st, clo);
    ExecIsCall(I, s, ins);
    var (l, h) := DefineAll(map[], st.heap, fn.params, args);
    ActivationCalls(base, pc, floor, st, l);
    GoesLinked(I, s, ins, At(Activation(base, pc, floor, st, l), pos, floor, st.(locals := l, heap := h), clo));
  }

  lemma ActivationCalls(base: State, pc: nat, floor: seq<Value>, st: St, l: Locals)
    requires base.calls != []
    ensures Activation(base, pc, floor, st, l).calls != []
  {
  }

  lemma CallTooDeep(I: Image, c: Ctx, base: State, name: Str, args: seq<Value>, pc: nat, floor: seq<Value>, st: St,
                    clo: seq<Clo<nat>>, fuel: nat)
    requires Ready(I, c, base) && Tied(I, clo, st.closures) && Hole(I.slots, pc, CallHole(name, c.ent))
             && Callable(I.G(c), name, |args|)
    requires c.depth >= I.p.w.maxCallDepth
    ensures Meets(I, base, At(base, pc, floor + args, st, clo), floor, pc + 1, 0, clo, fuel,
                  Raised(CallDepthLimit(I.p.w.maxCallDepth), st))
  {
    hide Filled, Fits, Run, ExecCall, Exec, LosslessJoin, DefineAll, Activation, BodyAt, Meets, Tied;
    CallTarget(I, pc, name, c.ent);
    var (fn, pos) := Target(I, c.ent, name).value;
    var s := At(base, pc, floor + args, st, clo);
    var ins := Call(pos, LosslessJoin(fn.params));
    CallExec(I, base, c, pc, floor, args, pos, fn.params, st, clo);
    ExecIsCall(I, s, ins);
    FailsLinked(I, base, s, floor, pc + 1, ins, CallDepthLimit(I.p.w.maxCallDepth), s, st, clo, fuel);
  }

  lemma ClosureEnters(I: Image, base: State, id: nat, args: seq<Value>, pc: nat, floor: seq<Value>, st: St,
                      clo: seq<Clo<nat>>)
    requires base.calls != [] && Filled(I) && Is(I.slots, pc, Calling(args)) && Accepts(clo, Closure(id), |args|)
    ensures On(I, At(base, pc, floor + [Closure(id)] + args, st, clo), 1,
               Activation(base, pc, floor, st, Passed(clo, id, st, args).locals), Entry(clo, id), floor,
               Passed(clo, id, st, args), clo)
  {
    hide Filled, Run, ExecCall, Exec, Passed, Activation;
    var s := At(base, pc, floor + [Closure(id)] + args, st, clo);
    var st1 := Passed(clo, id, st, args);
    CallClosureExec(I, base, pc, floor, id, args, st, clo);
    ExecIsCall(I, s, Calling(args));
    ActivationCalls(base, pc, floor, st, st1.locals);
    Goes(I, s, Calling(args), At(Activation(base, pc, floor, st, st1.locals), Entry(clo, id), floor, st1, clo));
  }

  lemma ClosureRefuses(I: Image, base: State, f: Value, args: seq<Value>, pc: nat, floor: seq<Value>, st: St,
                       clo: seq<Clo<nat>>, fuel: nat)
    requires base.calls != [] && Filled(I) && Tied(I, clo, st.closures) && Is(I.slots, pc, Calling(args))
    requires !Accepts(clo, f, |args|)
    ensures Meets(I, base, At(base, pc, floor + [f] + args, st, clo), floor, pc + 1, 0, clo, fuel,
                  Raised(Refusal(clo, f, |args|), st))
  {
    hide Filled, Run, ExecCall, Exec, DefineAll, Activation, Meets, Tied;
    var s := At(base, pc, floor + [f] + args, st, clo);
    CallClosureErr(I, base, pc, floor, f, args, st, clo);
    ExecIsCall(I, s, Calling(args));
    Fails(I, base, s, floor, pc + 1, Calling(args), Refusal(clo, f, |args|), s.(values := floor), st, clo, fuel);
  }

  lemma LambdaMeets(I: Image, c: Ctx, base: State, params: seq<Str>, captures: seq<Str>, body: seq<Stmt>, pc: nat,
                    floor: seq<Value>, st: St, clo: seq<Clo<nat>>, fuel: nat)
    returns (n: nat, clo': seq<Clo<nat>>)
    requires Ready(I, c, base) && Tied(I, clo, st.closures)
    requires NulFree(params + captures) && Hole(I.slots, pc, ClosureHole(params, captures, body, c.ent))
    ensures Meets(I, base, At(base, pc, floor, st, clo), floor, pc + 1, n, clo', fuel,
                  OneGoal(Eval(I.p, fuel, c, Lambda(params, captures, body), st)))
  {
    hide Fits, Run, ExecCall, Exec, LosslessJoin, BodyAt, Meets, Capture, DefineAll, ExprsLen, LitLen, LitsLen, Prim;
    hide RunBody;
    var s := At(base, pc, floor, st, clo);
    assert FilledAt(I, pc);
    var at_ := I.bodyEntry[pc];
    var ins := MakeClosure(at_, |params|, LosslessJoin(params + captures));
    MakeClosureExec(I, base, c, pc, floor, at_, params, captures, st, clo);
    ExecIsCall(I, s, ins);
    var caps := Capture(st.locals, I.p.outer, captures);
    if caps.Err? {
      n, clo' := 0, clo;
      FailsLinked(I, base, s, floor, pc + 1, ins, caps.error, s, st, clo, fuel);
    } else {
      n := 1;
      clo' := clo + [Clo(at_, params, caps.value)];
      var st' := st.(closures := st.closures + [Clo(Block(c.ent, body), params, caps.value)]);
      GoesLinked(I, s, ins, At(base, pc + 1, floor + [Closure(|clo|)], st', clo'));
      Lands(I, base, s, floor, [Closure(|clo|)], pc + 1, 1, clo', fuel, st');
    }
  }

  /** The private copy of a list that loops work on. */
  lemma CopyMeets(I: Image, base: State, pc: nat, floor: seq<Value>, v: Value, st: St, clo: seq<Clo<nat>>, fuel: nat)
      returns (n: nat)
    requires base.calls != [] && Filled(I) && Tied(I, clo, st.closures) && Is(I.slots, pc, Variadic(MakeList, Dynamic))
    ensures var o := CopyList(I.p, v, st);
            && (match o
                case Done(w, s) =>
                  && v.List? && w == List(NewId(st))
                  && s == st.(heap := st.heap.(lists := st.heap.lists + [Items(st.heap.lists, WorkId(v))]))
                case Raised(_, _) => true
                case OutOfFuel => false)
            && Meets(I, base, At(base, pc, floor + [v], st, clo), floor, pc + 1, n, clo, fuel, OneGoal(o))
  {
    hide Filled, Tied, Is, Meets, At;
    n := OpMeets(I, base, pc, floor, Variadic(MakeList, Dynamic), [v], st, clo, fuel);
  }
}
