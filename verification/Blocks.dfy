/** What the blocks of a program give, said of values, items and variables: the evaluator's leaves, written out. */
module Blocks {
  import opened Common
  import opened Bytecode
  import opened Values
  import opened Elementwise
  import opened Machine
  import opened Ast
  import opened Source
  import opened Operators
  import opened Operands
  import opened Variables

  // ----- blocks that apply one instruction to their operands -----

  /** The instruction that a block of values stands for. */
  ghost predicate IsFor(op: SimpleOp, ins: Instruction) {
    || (op.OfBinary? && ins == Binary(op.bop)) || (op.OfUnary? && ins == Unary(op.uop))
    || (op.OfRelation? && ins == Cmp(op.rel)) || (op.OfIdentical? && ins == Identical)
    || (op.OfCons? && ins == ListCons) || (op.OfCdr? && ins == ListCdr) || (op.OfIsEmpty? && ins == ListIsEmpty)
    || (op.OfLength? && ins == ListLength) || (op.OfReverse? && ins == ListRev) || (op.OfLast? && ins == ListGetLast)
  }

  ghost predicate DoIsFor(op: SimpleDo, ins: Instruction) {
    || (op.DoInsertLast? && ins == ListInsertLast) || (op.DoAssignLast? && ins == ListAssignLast)
    || (op.DoRemoveLast? && ins == ListRemoveLast) || (op.DoRemoveAll? && ins == ListRemoveAll)
    || (op.DoThrow? && ins == Throw)
  }

  /** The same state with other lists. */
  function WithLists(s: St, lists: seq<seq<Value>>): St {
    St(s.locals, Heap(s.heap.cells, lists), s.closures, s.turns)
  }

  /** A block gives what its instruction is meant to make of its operands, or fails with the instruction's reason. */
  ghost predicate Gives(p: Prog, ins: Instruction, vs: seq<Value>, s: St, o: Out<Value>) {
    || (exists v, lists :: Means(p.w, ins, vs, s.heap.lists, [v], lists) && o == Done(v, WithLists(s, lists)))
    || (exists err :: Refuses(p.w, ins, vs, s.heap.lists, err) && o == Raised(err, s))
  }

  ghost predicate Does_(p: Prog, ins: Instruction, vs: seq<Value>, s: St, o: Out<Option<Value>>) {
    || (exists lists :: Means(p.w, ins, vs, s.heap.lists, [], lists) && o == Done(None, WithLists(s, lists)))
    || (exists err :: Refuses(p.w, ins, vs, s.heap.lists, err) && o == Raised(err, s))
  }

  /** One result, or none. */
  lemma Results(w: World, ins: Instruction, vs: seq<Value>, heap: Heap)
    requires Takes(ins, |vs|) && AllExisting(vs, heap.lists) && Prim(w, ins, vs, heap).Ok?
    ensures var quiet := ins.PopValue? || ins.ListInsertLast? || ins.ListAssignLast? || ins.ListRemoveLast?
                         || ins.ListRemoveAll?;
            |Prim(w, ins, vs, heap).value.0| == if quiet then 0 else 1
    ensures !ins.Throw?
  {
    hide BinaryOn, UnaryOn, Relates, Combine;
    if ins.Variadic? {
      hide Prim;
      VariadicOne(w, ins, vs, heap);
    }
  }

  lemma VariadicOne(w: World, ins: Instruction, vs: seq<Value>, heap: Heap)
    requires Takes(ins, |vs|) && ins.Variadic? && AllExisting(vs, heap.lists) && Prim(w, ins, vs, heap).Ok?
    ensures |Prim(w, ins, vs, heap).value.0| == 1
  {
    hide Prim, BinaryOn, UnaryOn, Relates, Combine, Totals, Best, RefusesVariadic;
    PrimExplained(w, ins, vs, heap);
  }

  lemma AppliedGives(p: Prog, ins: Instruction, vs: seq<Value>, s: St)
    requires Takes(ins, |vs|) && AllExisting(vs, s.heap.lists)
    requires !ins.PopValue? && !ins.ListInsertLast? && !ins.ListAssignLast? && !ins.ListRemoveLast?
             && !ins.ListRemoveAll?
    ensures Gives(p, ins, vs, s, Single(ApplyPrim(p, ins, vs, s)))
  {
    hide Prim, Means, Refuses, AllExisting, Takes;
    PrimExplained(p.w, ins, vs, s.heap);
    var r := Prim(p.w, ins, vs, s.heap);
    if r.Ok? {
      Results(p.w, ins, vs, s.heap);
      var v, lists := r.value.0[0], r.value.1.lists;
      assert r.value.0 == [v];
      assert Means(p.w, ins, vs, s.heap.lists, [v], lists);
      assert Single(ApplyPrim(p, ins, vs, s)) == Done(v, WithLists(s, lists));
    } else {
      assert Refuses(p.w, ins, vs, s.heap.lists, r.error) && Single(ApplyPrim(p, ins, vs, s)) == Raised(r.error, s);
    }
  }

  lemma AppliedDoes(p: Prog, ins: Instruction, vs: seq<Value>, s: St)
    requires Takes(ins, |vs|) && AllExisting(vs, s.heap.lists)
    requires ins.ListInsertLast? || ins.ListAssignLast? || ins.ListRemoveLast? || ins.ListRemoveAll? || ins.Throw?
    ensures Does_(p, ins, vs, s, Quiet(ApplyPrim(p, ins, vs, s)))
  {
    hide Prim, Means, Refuses, AllExisting, Takes;
    PrimExplained(p.w, ins, vs, s.heap);
    var r := Prim(p.w, ins, vs, s.heap);
    if r.Ok? {
      Results(p.w, ins, vs, s.heap);
      var lists := r.value.1.lists;
      assert r.value.0 == [];
      assert Means(p.w, ins, vs, s.heap.lists, [], lists);
      assert Quiet(ApplyPrim(p, ins, vs, s)) == Done(None, WithLists(s, lists));
    } else {
      assert Refuses(p.w, ins, vs, s.heap.lists, r.error) && Quiet(ApplyPrim(p, ins, vs, s)) == Raised(r.error, s);
    }
  }

  /** An operator, relation or list block. */
  lemma SimpleBlock(p: Prog, fuel: nat, c: Ctx, op: SimpleOp, args: seq<Expr>, st: St, vs: seq<Value>, s: St,
                    ins: Instruction)
    requires EvalAll(p, fuel, c, args, st) == Done(vs, s) && IsFor(op, ins) && Takes(ins, |vs|)
             && AllExisting(vs, s.heap.lists)
    ensures Gives(p, ins, vs, s, Eval(p, fuel, c, Simple(op, args), st))
  {
    hide EvalAll, Gives, Takes, AllExisting, ApplyPrim;
    assert Lower(op) == ins;
    AppliedGives(p, ins, vs, s);
  }

  /** A block that changes a list, or throws. */
  lemma DoBlock(p: Prog, fuel: nat, c: Ctx, op: SimpleDo, args: seq<Expr>, st: St, vs: seq<Value>, s: St,
                ins: Instruction)
    requires EvalAll(p, fuel, c, args, st) == Done(vs, s) && DoIsFor(op, ins) && Takes(ins, |vs|)
             && AllExisting(vs, s.heap.lists)
    ensures Does_(p, ins, vs, s, Exec1(p, fuel, c, Do(op, args), st))
  {
    hide EvalAll, Does_, Takes, AllExisting, ApplyPrim;
    assert LowerDo(op) == ins;
    AppliedDoes(p, ins, vs, s);
  }

  /** A list that is written out with blocks for its items. */
  lemma ListBlock(p: Prog, fuel: nat, c: Ctx, items: seq<Expr>, st: St, vs: seq<Value>, s: St)
    requires EvalAll(p, fuel, c, items, st) == Done(vs, s) && AllExisting(vs, s.heap.lists)
    ensures Gives(p, Variadic(MakeList, Fixed(|vs|)), vs, s, Eval(p, fuel, c, ListOf(items), st))
  {
    hide EvalAll, Gives, AllExisting, ApplyPrim;
    AppliedGives(p, Variadic(MakeList, Fixed(|vs|)), vs, s);
  }

  /** An operator on any number of items: those of a list that is written out, or those of a list that is computed. */
  lemma ReduceBlock(p: Prog, fuel: nat, c: Ctx, vop: VariadicOp, src: Expr, st: St)
    requires !vop.StrCat?
    ensures src.ListOf? ==>
              var o := EvalAll(p, fuel, c, src.items, st);
              o.Done? && AllExisting(o.v, o.st.heap.lists) ==>
                Gives(p, Variadic(vop, Fixed(|o.v|)), o.v, o.st, Eval(p, fuel, c, Reduce(vop, src), st))
    ensures Written(src) ==>
              var o := EvalLits(p, src.v.items, st);
              o.Done? && AllExisting(o.v, o.st.heap.lists) ==>
                Gives(p, Variadic(vop, Fixed(|o.v|)), o.v, o.st, Eval(p, fuel, c, Reduce(vop, src), st))
    ensures !src.ListOf? && !Written(src) ==>
              var o := Eval(p, fuel, c, src, st);
              o.Done? && AllExisting([o.v], o.st.heap.lists) ==>
                Gives(p, Variadic(vop, Dynamic), [o.v], o.st, Eval(p, fuel, c, Reduce(vop, src), st))
  {
    hide Gives, AllExisting, ApplyPrim;
    if src.ListOf? {
      ReducedItems(p, fuel, c, vop, src, st);
    } else if Written(src) {
      ReducedLits(p, fuel, c, vop, src, st);
    } else {
      ReducedList(p, fuel, c, vop, src, st);
    }
  }

  lemma ReducedLits(p: Prog, fuel: nat, c: Ctx, vop: VariadicOp, src: Expr, st: St)
    requires !vop.StrCat? && Written(src)
    ensures var o := EvalLits(p, src.v.items, st);
            o.Done? && AllExisting(o.v, o.st.heap.lists) ==>
              Gives(p, Variadic(vop, Fixed(|o.v|)), o.v, o.st, Eval(p, fuel, c, Reduce(vop, src), st))
  {
    hide EvalLits, Gives, AllExisting, ApplyPrim;
    var o := EvalLits(p, src.v.items, st);
    if o.Done? && AllExisting(o.v, o.st.heap.lists) {
      AppliedGives(p, Variadic(vop, Fixed(|o.v|)), o.v, o.st);
    }
  }

  lemma ReducedItems(p: Prog, fuel: nat, c: Ctx, vop: VariadicOp, src: Expr, st: St)
    requires !vop.StrCat? && src.ListOf?
    ensures var o := EvalAll(p, fuel, c, src.items, st);
            o.Done? && AllExisting(o.v, o.st.heap.lists) ==>
              Gives(p, Variadic(vop, Fixed(|o.v|)), o.v, o.st, Eval(p, fuel, c, Reduce(vop, src), st))
  {
    hide EvalAll, Gives, AllExisting, ApplyPrim;
    var o := EvalAll(p, fuel, c, src.items, st);
    if o.Done? && AllExisting(o.v, o.st.heap.lists) {
      AppliedGives(p, Variadic(vop, Fixed(|o.v|)), o.v, o.st);
    }
  }

  lemma ReducedList(p: Prog, fuel: nat, c: Ctx, vop: VariadicOp, src: Expr, st: St)
    requires !vop.StrCat? && !src.ListOf? && !Written(src)
    ensures var o := Eval(p, fuel, c, src, st);
            o.Done? && AllExisting([o.v], o.st.heap.lists) ==>
              Gives(p, Variadic(vop, Dynamic), [o.v], o.st, Eval(p, fuel, c, Reduce(vop, src), st))
  {
    hide Gives, AllExisting, ApplyPrim;
    var o := Eval(p, fuel, c, src, st);
    if o.Done? && AllExisting([o.v], o.st.heap.lists) {
      AppliedGives(p, Variadic(vop, Dynamic), [o.v], o.st);
    }
  }

  // ----- literals -----

  /** A value looks like a literal. */
  ghost predicate Shows(w: World, lists: seq<seq<Value>>, v: Value, lit: Lit)
    decreases lit
  {
    match lit
    case NumLit(bits) => v.Num? && w.number(bits) == Some(v.n)
    case TxtLit(text) => v == Txt(text)
    case BoolLit(b) => v == Bool(b)
    case ListLit(items) =>
      v.List? && v.id < |lists| && |lists[v.id]| == |items|
      && forall i :: 0 <= i < |items| ==> Shows(w, lists, lists[v.id][i], items[i])
  }

  lemma {:induction false} ShowsStill(w: World, lists: seq<seq<Value>>, longer: seq<seq<Value>>, v: Value, lit: Lit)
    requires Shows(w, lists, v, lit) && lists <= longer
    ensures Shows(w, longer, v, lit)
    decreases lit
  {
    if lit.ListLit? {
      assert longer[v.id] == lists[v.id];
      forall i | 0 <= i < |lit.items| ensures Shows(w, longer, longer[v.id][i], lit.items[i]) {
        ShowsStill(w, lists, longer, lists[v.id][i], lit.items[i]);
      }
    }
  }

  /** A literal gives a value that looks like it, in new lists; only a number that is none can make it fail. */
  lemma {:induction false} LiteralBlock(p: Prog, lit: Lit, st: St)
    ensures var o := EvalLit(p, lit, st);
            || (o.Done? && SameButHeap(st, o.st) && o.st.heap.cells == st.heap.cells
                && st.heap.lists <= o.st.heap.lists && Shows(p.w, o.st.heap.lists, o.v, lit))
            || (o.Raised? && o.err == BadNumber)
    decreases lit
  {
    if lit.ListLit? {
      LiteralItems(p, lit.items, st);
      var q := EvalLits(p, lit.items, st);
      if q.Done? {
        var lists := q.st.heap.lists + [q.v];
        ListMade(p, q.v, q.st);
        forall i | 0 <= i < |lit.items| ensures Shows(p.w, lists, q.v[i], lit.items[i]) {
          ShowsStill(p.w, q.st.heap.lists, lists, q.v[i], lit.items[i]);
        }
      }
    }
  }

  lemma ListMade(p: Prog, vs: seq<Value>, s: St)
    ensures Single(ApplyPrim(p, Variadic(MakeList, Fixed(|vs|)), vs, s))
            == Done(List(|s.heap.lists|), WithLists(s, s.heap.lists + [vs]))
  {
  }

  lemma {:induction false} LiteralItems(p: Prog, lits: seq<Lit>, st: St)
    ensures var o := EvalLits(p, lits, st);
            || (o.Done? && SameButHeap(st, o.st) && o.st.heap.cells == st.heap.cells
                && st.heap.lists <= o.st.heap.lists && |o.v| == |lits|
                && forall i :: 0 <= i < |lits| ==> Shows(p.w, o.st.heap.lists, o.v[i], lits[i]))
            || (o.Raised? && o.err == BadNumber)
    decreases lits
  {
    if lits != [] {
      LiteralBlock(p, lits[0], st);
      var a := EvalLit(p, lits[0], st);
      if a.Done? {
        LiteralItems(p, lits[1..], a.st);
        var b := EvalLits(p, lits[1..], a.st);
        if b.Done? {
          ShowsStill(p.w, a.st.heap.lists, b.st.heap.lists, a.v, lits[0]);
          forall i | 0 <= i < |lits| ensures Shows(p.w, b.st.heap.lists, ([a.v] + b.v)[i], lits[i]) {
            assert i > 0 ==> lits[i] == lits[1..][i - 1] && ([a.v] + b.v)[i] == b.v[i - 1];
          }
        }
      }
    }
  }

  // ----- conditions -----

  /** A condition must be a truth value, and it decides as it says. */
  lemma IfBlock(p: Prog, fuel: nat, c: Ctx, cond: Expr, then_: seq<Stmt>, else_: seq<Stmt>, st: St, v: Value, s: St)
    requires Eval(p, fuel, c, cond, st) == Done(v, s)
    ensures v == Bool(true) ==>
              && Exec1(p, fuel, c, If(cond, then_), st) == ExecAll(p, fuel, c, then_, s)
              && Exec1(p, fuel, c, IfElse(cond, then_, else_), st) == ExecAll(p, fuel, c, then_, s)
    ensures v == Bool(false) ==>
              && Exec1(p, fuel, c, If(cond, then_), st) == Done(None, s)
              && Exec1(p, fuel, c, IfElse(cond, then_, else_), st) == ExecAll(p, fuel, c, else_, s)
    ensures forall err :: NoBool(v, err) ==>
              && Exec1(p, fuel, c, If(cond, then_), st) == Raised(err, s)
              && Exec1(p, fuel, c, IfElse(cond, then_, else_), st) == Raised(err, s)
  {
    hide Eval, ExecAll, AsBool;
    TestIs(p, fuel, c, cond, st, v, s);
  }

  lemma TestIs(p: Prog, fuel: nat, c: Ctx, cond: Expr, st: St, v: Value, s: St)
    requires Eval(p, fuel, c, cond, st) == Done(v, s)
    ensures forall b :: v == Bool(b) ==> EvalTest(p, fuel, c, cond, st) == Done(b, s)
    ensures forall err :: NoBool(v, err) ==> EvalTest(p, fuel, c, cond, st) == Raised(err, s)
  {
    hide Eval;
  }

  lemma ChoiceBlock(p: Prog, fuel: nat, c: Ctx, cond: Expr, then_: Expr, else_: Expr, st: St, b: bool, s: St)
    requires Eval(p, fuel, c, cond, st) == Done(Bool(b), s)
    ensures Eval(p, fuel, c, Conditional(cond, then_, else_), st) == Eval(p, fuel, c, if b then then_ else else_, s)
  {
    hide EvalTest, AsBool, EvalShort, EvalAll, EvalHigher, EvalLit, EvalLits, CallNamed, CallClosureValue;
    TestIs(p, fuel, c, cond, st, Bool(b), s);
  }

  /** "Or" and "and": the second operand counts only if the first leaves it open. */
  lemma ShortBlock(p: Prog, fuel: nat, c: Ctx, left: Expr, right: Expr, st: St, b: bool, s: St, b': bool, t: St)
    requires Eval(p, fuel, c, left, st) == Done(Bool(b), s) && Eval(p, fuel, c, right, s) == Done(Bool(b'), t)
    ensures Eval(p, fuel, c, Or(left, right), st) == if b then Done(Bool(true), s) else Done(Bool(b'), t)
    ensures Eval(p, fuel, c, And(left, right), st) == if b then Done(Bool(b'), t) else Done(Bool(false), s)
  {
    hide EvalTest, AsBool, EvalAll, EvalHigher, EvalLit, EvalLits, CallNamed, CallClosureValue;
    TestIs(p, fuel, c, left, st, Bool(b), s);
    TestIs(p, fuel, c, right, s, Bool(b'), t);
  }

  // ----- calls -----

  /** The block that a name stands for: one of the entity before a global one. */
  ghost predicate Named(fns: FnTable, ent: Option<nat>, name: Str, fn: Fn) {
    || (ent.Some? && (ent, name) in fns && fns[(ent, name)] == fn)
    || ((ent.Some? ==> (ent, name) !in fns) && (None, name) in fns && fns[(None, name)] == fn)
  }

  /** A call of a custom block, one level down, in a scope in which only its parameters are, in new cells. */
  lemma NamedCall(p: Prog, fuel: nat, c: Ctx, name: Str, args: seq<Value>, st: St, fn: Fn)
    requires fuel > 0 && Named(p.fns, c.ent, name, fn) && |fn.params| == |args|
    ensures c.depth >= p.w.maxCallDepth ==>
              CallNamed(p, fuel, c, name, args, st) == Raised(CallDepthLimit(p.w.maxCallDepth), st)
    ensures c.depth < p.w.maxCallDepth ==>
              exists locals, cells ::
                && Binds(fn.params, map[], |st.heap.cells|, locals) && Extends(st.heap.cells, cells, args)
                && CallNamed(p, fuel, c, name, args, st)
                   == Resume(RunBody(p, fuel - 1, Ctx(Some(st.locals), c.depth + 1, c.warp, fn.ent), fn.upvars, fn.body,
                                     St(locals, Heap(cells, st.heap.lists), st.closures, st.turns)), st.locals)
  {
    hide RunBody, Binds, Extends, DefineAll;
    DefineAllBinds(map[], st.heap, fn.params, args);
    var (l, h) := DefineAll(map[], st.heap, fn.params, args);
    assert st.(locals := l, heap := h) == St(l, Heap(h.cells, st.heap.lists), st.closures, st.turns);
  }

  /** A call of a closure: its parameters in front of the variables that it shares with where it was made. */
  lemma ClosureCall(p: Prog, fuel: nat, c: Ctx, id: nat, args: seq<Value>, st: St)
    requires fuel > 0 && id < |st.closures|
    ensures var k := st.closures[id];
            && (|k.params| != |args| ==>
                  CallClosureValue(p, fuel, c, Closure(id), args, st)
                  == Raised(ClosureArgCount(|k.params|, |args|), st))
            && (|k.params| == |args| ==>
                  exists locals, cells ::
                    && Binds(k.params, k.captures, |st.heap.cells|, locals) && Extends(st.heap.cells, cells, args)
                    && CallClosureValue(p, fuel, c, Closure(id), args, st)
                       == Resume(RunBody(p, fuel - 1, Ctx(Some(st.locals), c.depth + 1, c.warp, k.code.ent), [],
                                         k.code.body, St(locals, Heap(cells, st.heap.lists), st.closures, st.turns)),
                                 st.locals))
  {
    hide RunBody, Binds, Extends, DefineAll;
    var k := st.closures[id];
    if |k.params| == |args| {
      DefineAllBinds(k.captures, st.heap, k.params, args);
      var (l, h) := DefineAll(k.captures, st.heap, k.params, args);
      assert st.(locals := l, heap := h) == St(l, Heap(h.cells, st.heap.lists), st.closures, st.turns);
    }
  }

  /** A closure shares the variables that it captures. */
  lemma LambdaBlock(p: Prog, fuel: nat, c: Ctx, params: seq<Str>, captures: seq<Str>, body: seq<Stmt>, st: St)
    ensures var o := Eval(p, fuel, c, Lambda(params, captures, body), st);
            || (exists caps :: Captures(st.locals, p.outer, captures, caps)
                               && o == Done(Closure(|st.closures|),
                                            St(st.locals, st.heap,
                                               st.closures + [Clo(Block(c.ent, body), params, caps)], st.turns)))
            || (exists name :: FirstUnbound(st.locals, p.outer, captures, name)
                               && o == Raised(UndefinedVariable(name), st))
  {
    hide Captures, FirstUnbound;
    CaptureBinds(st.locals, p.outer, captures);
  }

  /** A parameter passed by name: within the block it is the variable of the caller. */
  lemma UpvarLinked(p: Prog, c: Ctx, name: Str, more: seq<Str>, st: St, d: nat, t: Str, caller: Locals)
    requires c.parent == Some(caller) && Bound(st.locals, p.outer, name, d) && d < |st.heap.cells|
    requires IsText(p.w, st.heap.cells[d], t)
    ensures t !in caller ==> LinkUpvars(p, c, [name] + more, st) == Raised(UndefinedVariable(name), st)
    ensures t in caller ==>
              exists locals :: Rebound(st.locals, locals, name, caller[t])
                               && LinkUpvars(p, c, [name] + more, st) == LinkUpvars(p, c, more, st.(locals := locals))
  {
    var all := [name] + more;
    assert all[0] == name && all[1..] == more;
    if t in caller {
      assert Rebound(st.locals, st.locals[name := caller[t]], name, caller[t]);
    }
  }

  // ----- errors -----

  /** An error in the body of "try" goes to the handler, in whose variable is the message. */
  lemma TryBlock(p: Prog, fuel: nat, c: Ctx, body: seq<Stmt>, name: Str, handler: seq<Stmt>, st: St, err: Error, s: St)
    requires ExecAll(p, fuel, c, body, st) == Raised(err, s)
    ensures exists locals, cells, t ::
              && Tells(p.w, err, t) && Extends(s.heap.cells, cells, [Txt(t)])
              && Rebound(s.locals, locals, name, |s.heap.cells|)
              && Exec1(p, fuel, c, TryCatch(body, name, handler), st)
                 == ExecAll(p, fuel, c, handler, St(locals, Heap(cells, s.heap.lists), s.closures, s.turns))
  {
    hide ExecAll;
    var t := if err.Custom? then err.msg else p.w.describe(err);
    var locals, cells := s.locals[name := |s.heap.cells|], s.heap.cells + [Txt(t)];
    assert Tells(p.w, err, t) && Extends(s.heap.cells, cells, [Txt(t)]);
    assert Rebound(s.locals, locals, name, |s.heap.cells|);
    assert Caught(p, s, name, err) == St(locals, Heap(cells, s.heap.lists), s.closures, s.turns);
  }

  // ----- loops -----

  /** One round of "repeat": if the number is above zero the body is executed, and then the rest for one less. */
  lemma RepeatRound(p: Prog, fuel: nat, c: Ctx, x: real, body: seq<Stmt>, st: St)
    ensures x <= 0.0 ==> RunRepeat(p, fuel, c, Num(x), body, st) == Done(None, st)
    ensures x > 0.0 && fuel > 0 ==>
              RunRepeat(p, fuel, c, Num(x), body, st)
              == match ExecAll(p, fuel, c, body, st)
                 case Done(None, s) => RunRepeat(p, fuel - 1, c, Num(x - 1.0), body, Turn(c, s))
                 case o => o
  {
    hide ExecAll, Relates, BinaryOn, Turn;
    NumbersRelate(p.w, st.heap.lists, Greater, x, 0.0);
    var o := ExecAll(p, fuel, c, body, st);
    if o.Done? {
      NumbersArithmetic(p.w, Num(x), Num(1.0), x, 1.0, o.st.heap.lists);
    }
  }

  /** Declaring variables gives each that is not there a cell of its own with zero, and leaves the others. */
  lemma DeclareBlock(p: Prog, fuel: nat, c: Ctx, name: Str, more: seq<Str>, st: St)
    ensures name in st.locals ==>
              Exec1(p, fuel, c, DeclareLocals([name] + more), st) == Exec1(p, fuel, c, DeclareLocals(more), st)
    ensures name !in st.locals ==>
              exists locals, cells ::
                && Rebound(st.locals, locals, name, |st.heap.cells|) && Extends(st.heap.cells, cells, [Num(0.0)])
                && Exec1(p, fuel, c, DeclareLocals([name] + more), st)
                   == Exec1(p, fuel, c, DeclareLocals(more),
                            St(locals, Heap(cells, st.heap.lists), st.closures, st.turns))
  {
    var all := [name] + more;
    assert all[0] == name && all[1..] == more;
    assert Exec1(p, fuel, c, DeclareLocals(all), st) == Done(None, DeclareAllIn(DeclareIn(st, name), more));
    if name !in st.locals {
      var locals, cells := st.locals[name := |st.heap.cells|], st.heap.cells + [Num(0.0)];
      assert Rebound(st.locals, locals, name, |st.heap.cells|) && Extends(st.heap.cells, cells, [Num(0.0)]);
      assert DeclareIn(st, name) == St(locals, Heap(cells, st.heap.lists), st.closures, st.turns);
    }
  }

  /** "Declare x, set x to 5, report x" reports 5, and so for every literal. */
  lemma DeclareSetReport(p: Prog, fuel: nat, c: Ctx, name: Str, lit: Lit, st: St, v: Value, s: St)
    requires name !in st.locals && EvalLit(p, lit, DeclareIn(st, name)) == Done(v, s)
    ensures exists t ::
              ExecAll(p, fuel, c, [DeclareLocals([name]), SetVar(name, Literal(lit)), ReturnValue(Variable(name))], st)
              == Done(Some(v), t)
  {
    var ss := [DeclareLocals([name]), SetVar(name, Literal(lit)), ReturnValue(Variable(name))];
    var d := DeclareIn(st, name);
    assert [name][1..] == [] && DeclareAllIn(d, []) == d;
    LiteralBlock(p, lit, d);
    var e := |st.heap.cells|;
    assert Bound(s.locals, p.outer, name, e) && e < |s.heap.cells|;
    SetBlock(p, fuel, c, name, Literal(lit), d, v, s);
    var t :| && Exec1(p, fuel, c, SetVar(name, Literal(lit)), d) == Done(None, t) && SameButHeap(s, t)
             && t.heap.lists == s.heap.lists && Stores(s.heap.cells, t.heap.cells, e, v)
             && ReadsBack(p, s, t, e, v);
    ReadBlock(p, fuel, c, name, t);
    ThreeStatements(p, fuel, c, ss, st, d, t, v);
  }

  lemma ThreeStatements(p: Prog, fuel: nat, c: Ctx, ss: seq<Stmt>, st: St, d: St, t: St, v: Value)
    requires |ss| == 3 && Exec1(p, fuel, c, ss[0], st) == Done(None, d) && Exec1(p, fuel, c, ss[1], d) == Done(None, t)
    requires Exec1(p, fuel, c, ss[2], t) == Done(Some(v), t)
    ensures ExecAll(p, fuel, c, ss, st) == Done(Some(v), t)
  {
    hide Exec1;
    assert ss[1..][0] == ss[1] && ss[1..][1..] == ss[2..] && ss[2..][0] == ss[2];
    assert ExecAll(p, fuel, c, ss[2..], t) == Done(Some(v), t);
    assert ExecAll(p, fuel, c, ss[1..], d) == Done(Some(v), t);
  }
}
