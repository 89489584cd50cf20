/** Variables: reading gives what was written last. What instructions and blocks do to the cells of variables and to the
    names bound to them, cell by cell and name by name. */
module Variables {
  import opened Common
  import opened Bytecode
  import opened Values
  import opened Elementwise
  import opened Tokens
  import opened Machine
  import opened Ast
  import opened Source
  import opened Operators
  import opened Operands

  /** A name stands for a cell: that of the innermost variable of this name. */
  ghost predicate Bound(locals: Locals, outer: Locals, name: Str, c: nat) {
    (name in locals && locals[name] == c) || (name !in locals && name in outer && outer[name] == c)
  }

  ghost predicate Unbound(locals: Locals, outer: Locals, name: Str) {
    name !in locals && name !in outer
  }

  /** Cell `c` holds `v` now, and no other cell has changed. */
  ghost predicate Stores(before: seq<Value>, after: seq<Value>, c: nat, v: Value) {
    && c < |before| == |after| && after[c] == v
    && forall d :: 0 <= d < |before| && d != c ==> after[d] == before[d]
  }

  /** There are new cells with these values. */
  ghost predicate Extends(before: seq<Value>, after: seq<Value>, vs: seq<Value>) {
    && |after| == |before| + |vs| && (forall d :: 0 <= d < |before| ==> after[d] == before[d])
    && forall i :: 0 <= i < |vs| ==> after[|before| + i] == vs[i]
  }

  /** All names but `name` are bound as before. */
  ghost predicate Rebound(before: Locals, after: Locals, name: Str, c: nat) {
    && name in after && after[name] == c
    && forall n :: n != name ==> (n in after <==> n in before) && (n in before && n in after ==> after[n] == before[n])
  }

  /** The last place of a name. */
  ghost predicate LastAt(names: seq<Str>, i: nat) {
    i < |names| && forall j :: i < j < |names| ==> names[j] != names[i]
  }

  /** Names bound to cells from `base` on, one cell for each; of equal names the last one counts. */
  ghost predicate Binds(names: seq<Str>, before: Locals, base: nat, after: Locals) {
    && (forall i: nat :: LastAt(names, i) ==> names[i] in after && after[names[i]] == base + i)
    && (forall n :: n !in names ==> (n in after <==> n in before))
    && forall n :: n !in names && n in before && n in after ==> after[n] == before[n]
  }

  // ----- the state after a step -----

  /** The variables of the running activation. */
  function LocalsOf(s: State): Locals {
    if s.calls == [] then map[] else s.calls[|s.calls| - 1].locals
  }

  /** The activations below are as before, and the running one has other variables. */
  ghost predicate Rescoped(before: seq<Frame>, after: seq<Frame>, locals: Locals) {
    && |after| == |before| > 0
    && (forall i :: 0 <= i < |before| - 1 ==> after[i] == before[i])
    && var f := before[|before| - 1];
       after[|before| - 1]
       == Frame(f.calledFrom, f.returnTo, f.warp, f.valueSize, f.handlerSize, locals)
  }

  ghost predicate Moves(s: State, o: Outcome, aft: nat, calls: seq<Frame>, values: seq<Value>, heap: Heap) {
    o == Went(State(aft, s.warp, calls, values, s.handlers, heap, s.closures, s.turns))
  }

  // ----- instructions on variables -----

  /** Pushing a variable gives what its cell holds. */
  lemma ReadStep(m: Machine, s: State, name: Str, aft: nat)
    requires Ready(m, s, PushVariable(name), aft)
    ensures forall c: nat :: Bound(LocalsOf(s), m.outer, name, c) && c < |s.heap.cells| ==>
              GoesOn(s, StepImpl(m, s), aft, s.values + [s.heap.cells[c]], s.heap.lists)
    ensures Unbound(LocalsOf(s), m.outer, name) ==> Breaks(s, StepImpl(m, s), s.values, UndefinedVariable(name))
  {
    hide Fetch;
  }

  /** Assigning writes the operand to the cell of the name, and to no other. */
  lemma AssignStep(m: Machine, s: State, name: Str, aft: nat, rest: seq<Value>, v: Value)
    requires Ready(m, s, Assign(name), aft) && s.values == rest + [v]
    ensures forall c: nat :: Bound(LocalsOf(s), m.outer, name, c) && c < |s.heap.cells| ==>
              exists cells :: Stores(s.heap.cells, cells, c, v)
                              && Moves(s, StepImpl(m, s), aft, s.calls, rest, Heap(cells, s.heap.lists))
    ensures Unbound(LocalsOf(s), m.outer, name) ==> Breaks(s, StepImpl(m, s), rest, UndefinedVariable(name))
  {
    hide Fetch;
    assert s.values[..|rest|] == rest;
    forall c: nat | Bound(LocalsOf(s), m.outer, name, c) && c < |s.heap.cells|
      ensures exists cells :: Stores(s.heap.cells, cells, c, v)
                              && Moves(s, StepImpl(m, s), aft, s.calls, rest, Heap(cells, s.heap.lists))
    {
      var cells := s.heap.cells[c := v];
      assert Stores(s.heap.cells, cells, c, v);
      assert Moves(s, StepImpl(m, s), aft, s.calls, rest, Heap(cells, s.heap.lists));
    }
  }

  /** Assigning with an operator writes the result for the old value and the operand. */
  lemma ChangeStep(m: Machine, s: State, name: Str, op: BinaryOp, aft: nat, rest: seq<Value>, v: Value, c: nat)
    requires Ready(m, s, BinaryOpAssign(name, op), aft) && s.values == rest + [v]
    requires Bound(LocalsOf(s), m.outer, name, c) && c < |s.heap.cells|
    ensures var r := BinaryOn(m.w, op, s.heap.cells[c], v, s.heap.lists);
            && (r.Err? ==> Breaks(s, StepImpl(m, s), rest, r.error))
            && (r.Ok? ==> exists cells :: Stores(s.heap.cells, cells, c, r.value.0)
                                          && Moves(s, StepImpl(m, s), aft, s.calls, rest, Heap(cells, r.value.1)))
    ensures forall x, y :: op == Add && IsNumber(m.w, s.heap.cells[c], x) && IsNumber(m.w, v, y) ==>
              exists cells :: Stores(s.heap.cells, cells, c, Num(x + y))
                              && Moves(s, StepImpl(m, s), aft, s.calls, rest, Heap(cells, s.heap.lists))
  {
    hide Fetch, BinaryOn, IsNumber;
    assert s.values[..|rest|] == rest;
    var r := BinaryOn(m.w, op, s.heap.cells[c], v, s.heap.lists);
    if r.Ok? {
      var cells := s.heap.cells[c := r.value.0];
      assert Stores(s.heap.cells, cells, c, r.value.0);
      assert Moves(s, StepImpl(m, s), aft, s.calls, rest, Heap(cells, r.value.1));
    }
    forall x, y | op == Add && IsNumber(m.w, s.heap.cells[c], x) && IsNumber(m.w, v, y)
      ensures r == Ok((Num(x + y), s.heap.lists))
    {
      NumbersArithmetic(m.w, s.heap.cells[c], v, x, y, s.heap.lists);
    }
  }

  /** Declaring a variable that is not there gives it a new cell with zero; declaring it again does nothing. */
  lemma DeclareStep(m: Machine, s: State, name: Str, aft: nat)
    requires Ready(m, s, DeclareLocal(name), aft)
    ensures name in LocalsOf(s) ==> Moves(s, StepImpl(m, s), aft, s.calls, s.values, s.heap)
    ensures name !in LocalsOf(s) ==>
              exists calls, locals, cells ::
                && Rescoped(s.calls, calls, locals) && Rebound(LocalsOf(s), locals, name, |s.heap.cells|)
                && Extends(s.heap.cells, cells, [Num(0.0)])
                && Moves(s, StepImpl(m, s), aft, calls, s.values, Heap(cells, s.heap.lists))
  {
    hide Fetch;
    if name !in LocalsOf(s) {
      var locals, cells := LocalsOf(s)[name := |s.heap.cells|], s.heap.cells + [Num(0.0)];
      var calls := s.calls[|s.calls| - 1 := s.calls[|s.calls| - 1].(locals := locals)];
      assert Rescoped(s.calls, calls, locals) && Rebound(LocalsOf(s), locals, name, |s.heap.cells|);
      assert Extends(s.heap.cells, cells, [Num(0.0)]);
      assert Moves(s, StepImpl(m, s), aft, calls, s.values, Heap(cells, s.heap.lists));
    }
  }

  // ----- reading and writing in programs -----

  /** A variable block gives what the cell of its name holds. */
  lemma ReadBlock(p: Prog, fuel: nat, c: Ctx, name: Str, st: St)
    ensures forall d: nat :: Bound(st.locals, p.outer, name, d) && d < |st.heap.cells| ==>
              Eval(p, fuel, c, Variable(name), st) == Done(st.heap.cells[d], st)
    ensures Unbound(st.locals, p.outer, name) ==>
              Eval(p, fuel, c, Variable(name), st) == Raised(UndefinedVariable(name), st)
  {
  }

  /** Reading in two states that differ in one cell: the names bound to that cell give what was written, in whatever
      scope they are, and all others give what they gave before. */
  ghost predicate ReadsBack(p: Prog, before: St, after: St, d: nat, v: Value) {
    && (forall fuel, c, locals, name {:trigger Eval(p, fuel, c, Variable(name), after.(locals := locals))} ::
          Bound(locals, p.outer, name, d) ==>
            Eval(p, fuel, c, Variable(name), after.(locals := locals)) == Done(v, after.(locals := locals)))
    && (forall fuel, c, locals, name, e: nat
          {:trigger Eval(p, fuel, c, Variable(name), after.(locals := locals)), Bound(locals, p.outer, name, e)} ::
          Bound(locals, p.outer, name, e) && e != d && e < |before.heap.cells| ==>
            && Eval(p, fuel, c, Variable(name), before.(locals := locals))
               == Done(before.heap.cells[e], before.(locals := locals))
            && Eval(p, fuel, c, Variable(name), after.(locals := locals))
               == Done(before.heap.cells[e], after.(locals := locals)))
  }

  lemma StoredReadsBack(p: Prog, before: St, after: St, d: nat, v: Value)
    requires Stores(before.heap.cells, after.heap.cells, d, v)
    ensures ReadsBack(p, before, after, d, v)
  {
    hide Eval;
    forall fuel, c, locals, name | Bound(locals, p.outer, name, d)
      ensures Eval(p, fuel, c, Variable(name), after.(locals := locals)) == Done(v, after.(locals := locals))
    {
      ReadBlock(p, fuel, c, name, after.(locals := locals));
    }
    forall fuel, c, locals, name, e: nat | Bound(locals, p.outer, name, e) && e != d && e < |before.heap.cells|
      ensures Eval(p, fuel, c, Variable(name), before.(locals := locals))
              == Done(before.heap.cells[e], before.(locals := locals))
      ensures Eval(p, fuel, c, Variable(name), after.(locals := locals))
              == Done(before.heap.cells[e], after.(locals := locals))
    {
      ReadBlock(p, fuel, c, name, before.(locals := locals));
      ReadBlock(p, fuel, c, name, after.(locals := locals));
    }
  }

  /** The same state but for the cells and the lists. */
  ghost predicate SameButHeap(s: St, t: St) {
    t.locals == s.locals && t.closures == s.closures && t.turns == s.turns
  }

  /** "Set x to e" writes the value of e to the cell of x, where everything that shares the cell reads it. */
  lemma SetBlock(p: Prog, fuel: nat, c: Ctx, name: Str, e: Expr, st: St, v: Value, s: St)
    requires Eval(p, fuel, c, e, st) == Done(v, s)
    ensures Unbound(s.locals, p.outer, name) ==>
              Exec1(p, fuel, c, SetVar(name, e), st) == Raised(UndefinedVariable(name), s)
    ensures forall d: nat :: Bound(s.locals, p.outer, name, d) && d < |s.heap.cells| ==>
              exists t :: && Exec1(p, fuel, c, SetVar(name, e), st) == Done(None, t) && SameButHeap(s, t)
                          && t.heap.lists == s.heap.lists && Stores(s.heap.cells, t.heap.cells, d, v)
                          && ReadsBack(p, s, t, d, v)
  {
    hide Eval, ReadsBack;
    forall d: nat | Bound(s.locals, p.outer, name, d) && d < |s.heap.cells|
      ensures exists t :: && Exec1(p, fuel, c, SetVar(name, e), st) == Done(None, t) && SameButHeap(s, t)
                          && t.heap.lists == s.heap.lists && Stores(s.heap.cells, t.heap.cells, d, v)
                          && ReadsBack(p, s, t, d, v)
    {
      var t := s.(heap := Heap(s.heap.cells[d := v], s.heap.lists));
      SetVariableWrites(p, s, name, v, d);
      assert Exec1(p, fuel, c, SetVar(name, e), st) == Done(None, t);
      StoredReadsBack(p, s, t, d, v);
    }
  }

  lemma SetVariableWrites(p: Prog, s: St, name: Str, v: Value, d: nat)
    requires Bound(s.locals, p.outer, name, d) && d < |s.heap.cells|
    ensures SetVariable(p, s, name, v) == Done(None, s.(heap := Heap(s.heap.cells[d := v], s.heap.lists)))
  {
  }

  /** The state in which the variable of a loop has a value, for its next round. */
  function Bind(p: Prog, st: St, name: Str, v: Value): Out<Option<Value>> {
    if name !in st.locals && name !in p.outer then Raised(UndefinedVariable(name), st)
    else
      var c := if name in st.locals then st.locals[name] else p.outer[name];
      var cells := seq(|st.heap.cells|, d requires 0 <= d < |st.heap.cells| => if d == c then v else st.heap.cells[d]);
      Done(None, St(st.locals, Heap(cells, st.heap.lists), st.closures, st.turns))
  }

  lemma BindIsSet(p: Prog, st: St, name: Str, v: Value)
    ensures SetVariable(p, st, name, v) == Bind(p, st, name, v)
  {
    var c := Lookup(st.locals, p.outer, name);
    if c.Some? {
      var n := |st.heap.cells|;
      assert SetCell(st.heap.cells, c.value, v)
             == seq(n, d requires 0 <= d < n => if d == c.value then v else st.heap.cells[d]);
    }
  }

  /** In the round, everything that shares the variable of the loop reads the value. */
  lemma RoundReads(p: Prog, st: St, name: Str, v: Value, d: nat)
    requires Bound(st.locals, p.outer, name, d) && d < |st.heap.cells|
    ensures var o := Bind(p, st, name, v);
            && o.Done? && SameButHeap(st, o.st) && o.st.heap.lists == st.heap.lists
            && Stores(st.heap.cells, o.st.heap.cells, d, v) && ReadsBack(p, st, o.st, d, v)
  {
    hide ReadsBack;
    StoredReadsBack(p, st, Bind(p, st, name, v).st, d, v);
  }

  /** "Change x by e" writes the sum of what x held and the value of e. */
  lemma ChangeBlock(p: Prog, fuel: nat, c: Ctx, name: Str, e: Expr, st: St, v: Value, s: St, d: nat)
    requires Eval(p, fuel, c, e, st) == Done(v, s) && Bound(s.locals, p.outer, name, d) && d < |s.heap.cells|
    ensures var r := BinaryOn(p.w, Add, s.heap.cells[d], v, s.heap.lists);
            && (r.Err? ==> Exec1(p, fuel, c, ChangeVar(name, e), st) == Raised(r.error, s))
            && (r.Ok? ==>
                  exists t :: && Exec1(p, fuel, c, ChangeVar(name, e), st) == Done(None, t) && SameButHeap(s, t)
                              && t.heap.lists == r.value.1 && Stores(s.heap.cells, t.heap.cells, d, r.value.0)
                              && ReadsBack(p, s, t, d, r.value.0))
    ensures forall x, y :: IsNumber(p.w, s.heap.cells[d], x) && IsNumber(p.w, v, y) ==>
              BinaryOn(p.w, Add, s.heap.cells[d], v, s.heap.lists) == Ok((Num(x + y), s.heap.lists))
  {
    hide Eval, ReadsBack, BinaryOn, IsNumber;
    var r := BinaryOn(p.w, Add, s.heap.cells[d], v, s.heap.lists);
    if r.Ok? {
      var t := s.(heap := Heap(s.heap.cells[d := r.value.0], r.value.1));
      assert Exec1(p, fuel, c, ChangeVar(name, e), st) == Done(None, t);
      StoredReadsBack(p, s, t, d, r.value.0);
    }
    forall x, y | IsNumber(p.w, s.heap.cells[d], x) && IsNumber(p.w, v, y)
      ensures r == Ok((Num(x + y), s.heap.lists))
    {
      NumbersArithmetic(p.w, s.heap.cells[d], v, x, y, s.heap.lists);
    }
  }

  // ----- parameters -----

  lemma BindsFirst(name: Str, names: seq<Str>, l0: Locals, base: nat, l1: Locals)
    requires Binds(names, l0[name := base], base + 1, l1)
    ensures Binds([name] + names, l0, base, l1)
  {
    hide LastAt;
    var all, mid := [name] + names, l0[name := base];
    forall i: nat | LastAt(all, i) ensures i < |all| && all[i] in l1 && l1[all[i]] == base + i {
      LastPlace(all, i);
      if i > 0 {
        LaterIsLast(name, names, i);
      } else {
        OnlyFirst(name, names);
        assert name in mid && mid[name] == base;
      }
    }
    forall n | n !in all ensures n !in names && n != name {
      NotAmong(name, names, n);
    }
  }

  lemma LastPlace(names: seq<Str>, i: nat)
    requires LastAt(names, i)
    ensures i < |names|
  {
  }

  lemma NotAmong(name: Str, names: seq<Str>, n: Str)
    requires n !in [name] + names
    ensures n !in names && n != name
  {
    assert ([name] + names)[0] == name;
    assert forall i :: 0 <= i < |names| ==> names[i] == ([name] + names)[i + 1];
  }

  lemma LaterIsLast(name: Str, names: seq<Str>, i: nat)
    requires i > 0 && LastAt([name] + names, i)
    ensures LastAt(names, i - 1) && names[i - 1] == ([name] + names)[i]
  {
    assert forall j :: 0 <= j < |names| ==> ([name] + names)[j + 1] == names[j];
  }

  lemma OnlyFirst(name: Str, names: seq<Str>)
    requires LastAt([name] + names, 0)
    ensures name !in names
  {
    assert forall j :: 0 <= j < |names| ==> ([name] + names)[j + 1] == names[j];
  }

  lemma ExtendsMore(before: seq<Value>, mid: seq<Value>, after: seq<Value>, v: Value, vs: seq<Value>)
    requires Extends(before, mid, [v]) && Extends(mid, after, vs)
    ensures Extends(before, after, [v] + vs)
  {
    forall i | 0 <= i < 1 + |vs| ensures after[|before| + i] == ([v] + vs)[i] {
      if i > 0 {
        assert after[|mid| + (i - 1)] == vs[i - 1];
      } else {
        assert mid[|before| + 0] == [v][0];
      }
    }
  }

  /** Parameters get new cells with the arguments, in order. */
  lemma {:induction false} DefineAllBinds(locals: Locals, heap: Heap, names: seq<Str>, args: seq<Value>)
    requires |names| == |args|
    ensures var (l, h) := DefineAll(locals, heap, names, args);
            && Binds(names, locals, |heap.cells|, l) && Extends(heap.cells, h.cells, args) && h.lists == heap.lists
    decreases |names|
  {
    hide Binds, Extends;
    if names == [] {
      NothingBinds(locals, |heap.cells|);
      NothingExtends(heap.cells);
    } else {
      var l0, h0 := locals[names[0] := |heap.cells|], heap.(cells := heap.cells + [args[0]]);
      DefineAllBinds(l0, h0, names[1..], args[1..]);
      var (l, h) := DefineAll(l0, h0, names[1..], args[1..]);
      assert [names[0]] + names[1..] == names && [args[0]] + args[1..] == args;
      BindsFirst(names[0], names[1..], locals, |heap.cells|, l);
      OneExtends(heap.cells, args[0]);
      ExtendsMore(heap.cells, h0.cells, h.cells, args[0], args[1..]);
    }
  }

  lemma NothingExtends(cells: seq<Value>)
    ensures Extends(cells, cells, [])
  {
  }

  lemma OneExtends(cells: seq<Value>, v: Value)
    ensures Extends(cells, cells + [v], [v])
  {
  }

  lemma NothingBinds(locals: Locals, base: nat)
    ensures Binds([], locals, base, locals)
  {
  }

  /** The running activation waits behind the call, and a new one runs at `pos` with these variables. */
  ghost predicate Enters(s: State, o: Outcome, aft: nat, pos: nat, rest: seq<Value>, locals: Locals,
                         cells: seq<Value>) {
    var frame := Frame(Some(s.pos), Some(aft), s.warp, |rest|, |s.handlers|, locals);
    o == Went(State(pos, s.warp, s.calls + [frame], rest, s.handlers, Heap(cells, s.heap.lists), s.closures, s.turns))
  }

  /** Calling a block: its parameters are bound to new cells with the arguments, and nothing else is in its scope. */
  lemma CallStep(m: Machine, s: State, pos: nat, tokens: Str, aft: nat, rest: seq<Value>, args: seq<Value>)
    requires Ready(m, s, Call(pos, tokens), aft) && s.values == rest + args && |LosslessSplit(tokens)| == |args|
    ensures |s.calls| >= m.w.maxCallDepth ==> Breaks(s, StepImpl(m, s), s.values, CallDepthLimit(m.w.maxCallDepth))
    ensures |s.calls| < m.w.maxCallDepth ==>
              exists locals, cells ::
                && Binds(LosslessSplit(tokens), map[], |s.heap.cells|, locals) && Extends(s.heap.cells, cells, args)
                && Enters(s, StepImpl(m, s), aft, pos, rest, locals, cells)
  {
    hide Fetch, LosslessSplit, Binds, Extends, DefineAll, Capture, BinaryOn, Prim, OnStack, ExecVariable, ExecJump;
    assert s.values[..|rest|] == rest && s.values[|rest|..] == args;
    var names := LosslessSplit(tokens);
    DefineAllBinds(map[], s.heap, names, args);
    var (l, h) := DefineAll(map[], s.heap, names, args);
    if |s.calls| < m.w.maxCallDepth {
      assert Enters(s, StepImpl(m, s), aft, pos, rest, l, h.cells);
    }
  }

  /** Calling a closure: its parameters, in front of what it has captured. */
  lemma CallClosureStep(m: Machine, s: State, n: nat, aft: nat, rest: seq<Value>, id: nat, args: seq<Value>)
    requires Ready(m, s, CallClosure(false, n), aft) && s.values == rest + [Closure(id)] + args && |args| == n
    requires id < |s.closures|
    ensures var k := s.closures[id];
            && (|k.params| != n ==> Breaks(s, StepImpl(m, s), rest, ClosureArgCount(|k.params|, n)))
            && (|k.params| == n ==>
                  exists locals, cells ::
                    && Binds(k.params, k.captures, |s.heap.cells|, locals) && Extends(s.heap.cells, cells, args)
                    && Enters(s, StepImpl(m, s), aft, k.code, rest, locals, cells))
  {
    hide Fetch, Binds, Extends, DefineAll, Capture, BinaryOn, Prim, OnStack, ExecVariable, ExecJump, LosslessSplit;
    assert s.values[..|rest|] == rest && s.values[|rest| + 1..] == args && s.values[|rest|] == Closure(id);
    var k := s.closures[id];
    if |k.params| == n {
      DefineAllBinds(k.captures, s.heap, k.params, args);
      var (l, h) := DefineAll(k.captures, s.heap, k.params, args);
      assert Enters(s, StepImpl(m, s), aft, k.code, rest, l, h.cells);
    }
  }

  // ----- captures -----

  /** The captured names are bound to the cells that they stand for where the closure is made. */
  ghost predicate Captures(locals: Locals, outer: Locals, names: seq<Str>, caps: Locals) {
    && (forall n :: n in caps <==> n in names)
    && forall n :: n in caps ==> Bound(locals, outer, n, caps[n])
  }

  /** The first name that stands for nothing. */
  ghost predicate FirstUnbound(locals: Locals, outer: Locals, names: seq<Str>, name: Str) {
    exists k :: 0 <= k < |names| && name == names[k] && Unbound(locals, outer, name)
                && forall j :: 0 <= j < k ==> !Unbound(locals, outer, names[j])
  }

  lemma {:induction false} CaptureBinds(locals: Locals, outer: Locals, names: seq<Str>)
    ensures var r := Capture(locals, outer, names);
            && (r.Ok? ==> Captures(locals, outer, names, r.value)
                          && forall i :: 0 <= i < |names| ==> !Unbound(locals, outer, names[i]))
            && (r.Err? ==>
                  exists name :: r.error == UndefinedVariable(name) && FirstUnbound(locals, outer, names, name))
    decreases |names|
  {
    hide Captures, FirstUnbound, Unbound;
    if names == [] {
      NothingCaptured(locals, outer);
    } else {
      var n := |names| - 1;
      CaptureBinds(locals, outer, names[..n]);
      var rest := Capture(locals, outer, names[..n]);
      if rest.Ok? {
        forall j | 0 <= j < n ensures !Unbound(locals, outer, names[j]) {
          assert names[j] == names[..n][j];
        }
        LastCaptured(locals, outer, names, rest.value);
      } else {
        var name :| rest.error == UndefinedVariable(name) && FirstUnbound(locals, outer, names[..n], name);
        StillFirst(locals, outer, names, name);
      }
    }
  }

  lemma NothingCaptured(locals: Locals, outer: Locals)
    ensures Captures(locals, outer, [], map[])
  {
  }

  lemma LastCaptured(locals: Locals, outer: Locals, names: seq<Str>, caps: Locals)
    requires names != [] && Captures(locals, outer, names[..|names| - 1], caps)
    requires forall j :: 0 <= j < |names| - 1 ==> !Unbound(locals, outer, names[j])
    ensures var name := names[|names| - 1];
            var c := Lookup(locals, outer, name);
            && (c.None? <==> Unbound(locals, outer, name))
            && (c.None? ==> FirstUnbound(locals, outer, names, name))
            && (c.Some? ==> Captures(locals, outer, names, caps[name := c.value]))
  {
    var n := |names| - 1;
    assert forall x :: x in names <==> x in names[..n] || x == names[n];
  }

  lemma StillFirst(locals: Locals, outer: Locals, names: seq<Str>, name: Str)
    requires names != [] && FirstUnbound(locals, outer, names[..|names| - 1], name)
    ensures FirstUnbound(locals, outer, names, name)
  {
    var front := names[..|names| - 1];
    var k :| 0 <= k < |front| && name == front[k] && Unbound(locals, outer, name)
             && forall j :: 0 <= j < k ==> !Unbound(locals, outer, front[j]);
    assert names[k] == front[k] && forall j :: 0 <= j < k ==> names[j] == front[j];
  }

  /** Making a closure captures the cells of the names behind its parameters. */
  lemma MakeClosureStep(m: Machine, s: State, pos: nat, n: nat, tokens: Str, aft: nat)
    requires Ready(m, s, MakeClosure(pos, n, tokens), aft) && n <= |LosslessSplit(tokens)|
    ensures var names, o := LosslessSplit(tokens), StepImpl(m, s);
            || (exists caps ::
                  && Captures(LocalsOf(s), m.outer, names[n..], caps)
                  && o == Went(State(aft, s.warp, s.calls, s.values + [Closure(|s.closures|)], s.handlers, s.heap,
                                     s.closures + [Clo(pos, names[..n], caps)], s.turns)))
            || (exists name :: FirstUnbound(LocalsOf(s), m.outer, names[n..], name)
                               && Breaks(s, o, s.values, UndefinedVariable(name)))
  {
    hide Fetch, LosslessSplit, Captures, FirstUnbound;
    CaptureBinds(LocalsOf(s), m.outer, LosslessSplit(tokens)[n..]);
  }

  // ----- variables passed by name -----

  /** A parameter that names a variable of the caller becomes that variable. */
  lemma UpvarStep(m: Machine, s: State, name: Str, aft: nat, c: nat, t: Str)
    requires Ready(m, s, InitUpvar(name), aft) && Bound(LocalsOf(s), m.outer, name, c) && c < |s.heap.cells|
    requires IsText(m.w, s.heap.cells[c], t)
    ensures var n, o := |s.calls|, StepImpl(m, s);
            && (n == 1 ==> Breaks(s, o, s.values, UpvarAtRoot))
            && (n > 1 && t !in s.calls[n - 2].locals ==> Breaks(s, o, s.values, UndefinedVariable(name)))
            && (n > 1 && t in s.calls[n - 2].locals ==>
                  exists calls, locals ::
                    && Rescoped(s.calls, calls, locals) && Rebound(LocalsOf(s), locals, name, s.calls[n - 2].locals[t])
                    && Moves(s, o, aft, calls, s.values, s.heap))
  {
    hide Fetch, LosslessSplit, DefineAll, Capture, BinaryOn, Prim, OnStack, ExecCall, ExecJump;
    var n := |s.calls|;
    if n > 1 && t in s.calls[n - 2].locals {
      var locals := LocalsOf(s)[name := s.calls[n - 2].locals[t]];
      var calls := s.calls[n - 1 := s.calls[n - 1].(locals := locals)];
      assert Rescoped(s.calls, calls, locals) && Rebound(LocalsOf(s), locals, name, s.calls[n - 2].locals[t]);
      assert Moves(s, StepImpl(m, s), aft, calls, s.values, s.heap);
    }
  }

  // ----- errors -----

  /** What an error handler is told: a message that a program has made, or else the description of the error. */
  ghost predicate Tells(w: World, err: Error, t: Str) {
    (err.Custom? && t == err.msg) || (!err.Custom? && t == w.describe(err))
  }

  /** A failing instruction resumes at the innermost handler, whose variable is a new one with the message. */
  lemma HandlerStep(m: Machine, s: State, err: Error, u: State)
    requires StepImpl(m, s) == Failed(err, u) && u.handlers != []
    requires var h := u.handlers[|u.handlers| - 1]; 0 < h.callSize <= |u.calls| && h.valueSize <= |u.values|
    ensures var h := u.handlers[|u.handlers| - 1];
            exists calls, locals, cells, t ::
              && Tells(m.w, err, t) && Extends(u.heap.cells, cells, [Txt(t)])
              && Rescoped(u.calls[..h.callSize], calls, locals)
              && Rebound(u.calls[h.callSize - 1].locals, locals, h.name, |u.heap.cells|)
              && Step(m, s) == Went(State(h.pos, h.warp, calls, u.values[..h.valueSize], u.handlers,
                                          Heap(cells, u.heap.lists), u.closures, u.turns))
  {
    hide StepImpl;
    var h := u.handlers[|u.handlers| - 1];
    var t := if err.Custom? then err.msg else m.w.describe(err);
    var below := u.calls[..h.callSize];
    var locals, cells := below[h.callSize - 1].locals[h.name := |u.heap.cells|], u.heap.cells + [Txt(t)];
    var calls := below[h.callSize - 1 := below[h.callSize - 1].(locals := locals)];
    assert Tells(m.w, err, t) && Extends(u.heap.cells, cells, [Txt(t)]) && Rescoped(below, calls, locals);
    assert Rebound(u.calls[h.callSize - 1].locals, locals, h.name, |u.heap.cells|);
    assert Step(m, s) == Went(State(h.pos, h.warp, calls, u.values[..h.valueSize], u.handlers,
                                    Heap(cells, u.heap.lists), u.closures, u.turns));
  }
}
