/** The straight stretches of the compiled statements: counting loops, loops over lists, short circuits. */
module LoopRounds {
  import opened Common
  import opened Bytecode
  import opened Values
  import opened Elementwise
  import opened Machine
  import opened Ast
  import opened Source
  import opened Codegen
  import opened Simulation
  import opened Rounds

  lemma CmpPrim(w: World, r: Relation, a: Value, b: Value, heap: Heap)
    ensures Prim(w, Cmp(r), [a, b], heap)
            == match Relates(w, heap.lists, r, a, b)
               case Ok(o) => Ok(([Bool(o)], heap))
               case Err(e) => Err(e)
  {
    hide BinaryOn, UnaryOn, Combine, Relates, OnList;
  }

  lemma BinaryPrim(w: World, op: BinaryOp, a: Value, b: Value, heap: Heap)
    ensures Prim(w, Binary(op), [a, b], heap)
            == match BinaryOn(w, op, a, b, heap.lists) {
              case Ok(o) => Ok(([o.0], heap.(lists := o.1)))
              case Err(e) => Err(e)
            }
  {
    hide BinaryOn, UnaryOn, Combine, Relates, OnList;
  }

  lemma AbsPrim(w: World, x: real, heap: Heap)
    ensures Prim(w, Unary(Abs), [Num(x)], heap) == Ok(([Num(if x < 0.0 then -x else x)], heap))
  {
    hide BinaryOn, UnaryOn, Combine, Relates, OnList;
    AbsOfNumber(w, x, heap.lists);
  }

  lemma NumbersCompare(w: World, lists: seq<seq<Value>>, x: real, y: real)
    ensures Relates(w, lists, Greater, Num(x), Num(y)) == Ok(x > y)
    ensures Relates(w, lists, Less, Num(x), Num(y)) == Ok(x < y)
  {
  }

  lemma SubPrim(w: World, op: BinaryOp, x: real, y: real, heap: Heap)
    requires op.Add? || op.Sub?
    ensures Prim(w, Binary(op), [Num(x), Num(y)], heap) == Ok(([Num(if op.Add? then x + y else x - y)], heap))
  {
    hide BinaryOn, UnaryOn, Combine, Relates, OnList, Prim;
    BinaryOnNumbers(w, op, x, y, heap.lists);
    BinaryPrim(w, op, Num(x), Num(y), heap);
  }

  /** An operator, by the outcome the evaluator gives it. */
  lemma PrimEnds(I: Image, s: State, n: nat, base: State, q: nat, ins: seq<Instruction>, i: nat, floor: seq<Value>,
                 args: seq<Value>, values: seq<Value>, err: Error, st: St, clo: seq<Clo<nat>>, fuel: nat)
                     returns (k: nat)
    requires Filled(I) && Are(I.slots, q, ins) && Tied(I, clo, st.closures)
    requires On(I, s, n, base, q + i, values, st, clo) && values == floor + args
    requires Works(I.p.w, ins, i, args, st.heap, Err(err))
    ensures Meets(I, base, s, floor, 0, k, clo, fuel, Raised(err, st))
  {
    hide Filled, Are, At, Prim, Arity, Run, Tied, Meets, StepImpl;
    AreIs(I.slots, q, ins, i);
    var m := PrimMeets(I, base, q + i, floor, ins[i], args, st, clo, fuel);
    var o: Out<Goal> := Raised(err, st);
    Escape(I, base, base, At(base, q + i, values, st, clo), floor, floor, 0, q + i + 1, m, clo, fuel, o);
    k := n + m;
    Chain(I, base, s, n, At(base, q + i, values, st, clo), floor, 0, m, clo, fuel, fuel, o);
  }

  /** Failures only need the values below to be kept. */
  lemma Sink(I: Image, base: State, s: State, floor: seq<Value>, more: seq<Value>, n: nat, clo: seq<Clo<nat>>,
             fuel: nat, o: Out<Goal>, next: nat)
    requires Escapes(o) && Meets(I, base, s, floor + more, next, n, clo, fuel, o)
    ensures Meets(I, base, s, floor, 0, n, clo, fuel, o)
  {
    hide *;
    Escape(I, base, base, s, floor, floor + more, 0, next, n, clo, fuel, o);
  }

  // ----- repeat -----

  lemma RepeatTest(I: Image, c: Ctx, base: State, a: nat, b: nat, floor: seq<Value>, v: Value, st: St,
                   clo: seq<Clo<nat>>, fuel: nat) returns (n: nat)
    requires Ready(I, c, base) && Tied(I, clo, st.closures) && Are(I.slots, a, RepeatHead(b))
             && Are(I.slots, b, RepeatTail(a))
    ensures var s := At(base, a, floor + [v], st, clo);
            match Relates(I.p.w, st.heap.lists, Greater, v, Num(0.0))
            case Err(e) => Meets(I, base, s, floor, 0, n, clo, fuel, Raised(e, st))
            case Ok(more) =>
              if more then n >= 1 && On(I, s, n, base, a + 4, floor + [v], st, clo)
              else On(I, s, n, base, b + 5, floor, st, clo)
  {
    hide Filled, Fits, Are, At, On, Relates, Prim, Meets, Tied;
    var code := RepeatHead(b);
    var w := floor + [v];
    var s := At(base, a, w, st, clo);
    var zero := Num(0.0);
    Start(I, base, a, w, st, clo);
    DupeTo(I, s, 0, base, a, code, 0, w, w + [v], st, clo);
    IntPrim(I.p.w, 0, st.heap);
    PrimTo(I, s, 1, base, a, code, 1, w + [v], [], [zero], st.heap, w + [v], w + [v, zero], st, clo);
    CmpPrim(I.p.w, Greater, v, zero, st.heap);
    var r := Relates(I.p.w, st.heap.lists, Greater, v, zero);
    if r.Err? {
      n := PrimEnds(I, s, 2, base, a, code, 2, w, [v, zero], w + [v, zero], r.error, st, clo, fuel);
      Sink(I, base, s, floor, [v], n, clo, fuel, Raised(r.error, st), 0);
    } else {
      PrimTo(I, s, 2, base, a, code, 2, w, [v, zero], [Bool(r.value)], st.heap, w + [v, zero], w + [Bool(r.value)], st,
             clo);
      BranchTo(I, s, 3, base, a, code, 3, w, r.value, w + [Bool(r.value)], st, clo);
      n := 4;
      if !r.value {
        PopTo(I, s, 4, base, b, RepeatTail(a), 4, w, floor, st, clo);
        n := 5;
      }
    }
  }

  lemma RepeatNext(I: Image, c: Ctx, base: State, a: nat, b: nat, floor: seq<Value>, v: Value, st: St,
                   clo: seq<Clo<nat>>, fuel: nat) returns (n: nat)
    requires Ready(I, c, base) && Tied(I, clo, st.closures) && Are(I.slots, b, RepeatTail(a))
    ensures var s := At(base, b, floor + [v], st, clo);
            match BinaryOn(I.p.w, Sub, v, Num(1.0), st.heap.lists)
            case Err(e) => Meets(I, base, s, floor, 0, n, clo, fuel, Raised(e, st))
            case Ok(r) =>
              n >= 1 && On(I, s, n, base, a, floor + [r.0], Turn(c, st.(heap := st.heap.(lists := r.1))), clo)
  {
    hide Filled, Fits, Are, At, On, BinaryOn, Prim, Meets, Tied, Turn;
    var code := RepeatTail(a);
    var w := floor + [v];
    var s := At(base, b, w, st, clo);
    var one := Num(1.0);
    Start(I, base, b, w, st, clo);
    IntPrim(I.p.w, 1, st.heap);
    PrimTo(I, s, 0, base, b, code, 0, w, [], [one], st.heap, w, floor + [v, one], st, clo);
    BinaryPrim(I.p.w, Sub, v, one, st.heap);
    var r := BinaryOn(I.p.w, Sub, v, one, st.heap.lists);
    if r.Err? {
      n := PrimEnds(I, s, 1, base, b, code, 1, floor, [v, one], floor + [v, one], r.error, st, clo, fuel);
    } else {
      var heap := st.heap.(lists := r.value.1);
      PrimTo(I, s, 1, base, b, code, 1, floor, [v, one], [r.value.0], heap, floor + [v, one], floor + [r.value.0], st,
             clo);
      BackTo(I, s, 2, base, c, b, code, 2, floor + [r.value.0], st.(heap := heap), clo);
      n := 4;
    }
  }

  // ----- counting: step, current value, remaining distance -----

  function StepOf(x: real, y: real): real {
    if x > y then -1.0 else 1.0
  }

  lemma ForStart(I: Image, c: Ctx, base: State, q: nat, floor: seq<Value>, x: real, y: real, st: St,
                 clo: seq<Clo<nat>>) returns (n: nat)
    requires Ready(I, c, base) && Are(I.slots, q, ForPrelude(q))
    ensures On(I, At(base, q, floor + [Num(x), Num(y)], st, clo), n, base, q + 12,
               floor + [Num(StepOf(x, y)), Num(x), Num(Distance(x, y))], st, clo)
  {
    hide Filled, Fits, Are, At, On, Prim, Relates;
    var code := ForPrelude(q);
    var a, b, d := Num(x), Num(y), Num(StepOf(x, y));
    var v := floor + [a, b];
    var s := At(base, q, v, st, clo);
    Start(I, base, q, v, st, clo);
    DupeTo(I, s, 0, base, q, code, 0, v, v + [a], st, clo);
    DupeTo(I, s, 1, base, q, code, 1, v + [a], v + [a, b], st, clo);
    CmpPrim(I.p.w, Greater, a, b, st.heap);
    NumbersCompare(I.p.w, st.heap.lists, x, y);
    PrimTo(I, s, 2, base, q, code, 2, v, [a, b], [Bool(x > y)], st.heap, v + [a, b], v + [Bool(x > y)], st, clo);
    BranchTo(I, s, 3, base, q, code, 3, v, x > y, v + [Bool(x > y)], st, clo);
    if x > y {
      IntPrim(I.p.w, -1, st.heap);
      PrimTo(I, s, 4, base, q, code, 6, v, [], [d], st.heap, v, v + [d], st, clo);
      n := 5;
    } else {
      IntPrim(I.p.w, 1, st.heap);
      PrimTo(I, s, 4, base, q, code, 4, v, [], [d], st.heap, v, v + [d], st, clo);
      JumpTo(I, s, 5, base, q, code, 5, v + [d], st, clo);
      n := 6;
    }
    n := ForArrange(I, c, base, s, n, q, floor, x, y, d, v + [d], st, clo);
  }

  lemma ForArrange(I: Image, c: Ctx, base: State, s: State, m: nat, q: nat, floor: seq<Value>, x: real, y: real,
                   d: Value, v: seq<Value>, st: St, clo: seq<Clo<nat>>) returns (n: nat)
    requires Ready(I, c, base) && Are(I.slots, q, ForPrelude(q))
    requires v == floor + [Num(x), Num(y), d] && On(I, s, m, base, q + 7, v, st, clo)
    ensures On(I, s, n, base, q + 12, floor + [d, Num(x), Num(Distance(x, y))], st, clo)
  {
    hide Filled, Fits, Are, At, On, Prim;
    var code := ForPrelude(q);
    var a, b := Num(x), Num(y);
    SwapTo(I, s, m, base, q, code, 7, v, floor + [d, b, a], st, clo);
    SwapTo(I, s, m + 1, base, q, code, 8, floor + [d, b, a], floor + [d, a, b], st, clo);
    DupeTo(I, s, m + 2, base, q, code, 9, floor + [d, a, b], floor + [d, a, b, a], st, clo);
    SubPrim(I.p.w, Sub, y, x, st.heap);
    PrimTo(I, s, m + 3, base, q, code, 10, floor + [d, a], [b, a], [Num(y - x)], st.heap, floor + [d, a, b, a],
           floor + [d, a, Num(y - x)], st, clo);
    AbsPrim(I.p.w, y - x, st.heap);
    PrimTo(I, s, m + 4, base, q, code, 11, floor + [d, a], [Num(y - x)], [Num(Distance(x, y))], st.heap,
           floor + [d, a, Num(y - x)], floor + [d, a, Num(Distance(x, y))], st, clo);
    n := m + 5;
  }

  /** Stop once the remaining distance is negative, otherwise offer the current value. */
  lemma ForTest(I: Image, c: Ctx, base: State, top: nat, tail: nat, trans: Str, floor: seq<Value>, d: Value,
                cur: Value, rem: real, st: St, clo: seq<Clo<nat>>) returns (n: nat)
    requires Ready(I, c, base) && Are(I.slots, top, ForHead(tail, trans)) && Are(I.slots, tail, ForTail(top))
    ensures var s := At(base, top, floor + [d, cur, Num(rem)], st, clo);
            n >= 1 &&
            if rem < 0.0 then On(I, s, n, base, tail + 12, floor, st, clo)
            else On(I, s, n, base, top + 5, floor + [d, cur, Num(rem)] + [cur], st, clo)
  {
    hide Filled, Fits, Are, At, On, Prim, Relates;
    var code := ForHead(tail, trans);
    var zero := Num(0.0);
    var v := floor + [d, cur, Num(rem)];
    var s := At(base, top, v, st, clo);
    Start(I, base, top, v, st, clo);
    DupeTo(I, s, 0, base, top, code, 0, v, v + [Num(rem)], st, clo);
    IntPrim(I.p.w, 0, st.heap);
    PrimTo(I, s, 1, base, top, code, 1, v + [Num(rem)], [], [zero], st.heap, v + [Num(rem)], v + [Num(rem), zero], st,
           clo);
    CmpPrim(I.p.w, Less, Num(rem), zero, st.heap);
    NumbersCompare(I.p.w, st.heap.lists, rem, 0.0);
    PrimTo(I, s, 2, base, top, code, 2, v, [Num(rem), zero], [Bool(rem < 0.0)], st.heap, v + [Num(rem), zero],
           v + [Bool(rem < 0.0)], st, clo);
    BranchTo(I, s, 3, base, top, code, 3, v, rem < 0.0, v + [Bool(rem < 0.0)], st, clo);
    if rem < 0.0 {
      var back := ForTail(top);
      PopTo(I, s, 4, base, tail, back, 9, v, floor + [d, cur], st, clo);
      PopTo(I, s, 5, base, tail, back, 10, floor + [d, cur], floor + [d], st, clo);
      PopTo(I, s, 6, base, tail, back, 11, floor + [d], floor, st, clo);
      n := 7;
    } else {
      DupeTo(I, s, 4, base, top, code, 4, v, v + [cur], st, clo);
      n := 5;
    }
  }

  lemma ForNext(I: Image, c: Ctx, base: State, top: nat, tail: nat, floor: seq<Value>, d: real, cur: real, rem: real,
                st: St, clo: seq<Clo<nat>>) returns (n: nat)
    requires Ready(I, c, base) && Are(I.slots, tail, ForTail(top))
    ensures n >= 1
    ensures On(I, At(base, tail, floor + [Num(d), Num(cur), Num(rem)], st, clo), n, base, top,
               floor + [Num(d), Num(cur + d), Num(rem - 1.0)], Turn(c, st), clo)
  {
    hide Filled, Fits, Are, At, On, Prim, Turn;
    var code := ForTail(top);
    var a, b, r, one := Num(d), Num(cur), Num(rem - 1.0), Num(1.0);
    var v := floor + [a, b, Num(rem)];
    var s := At(base, tail, v, st, clo);
    Start(I, base, tail, v, st, clo);
    IntPrim(I.p.w, 1, st.heap);
    PrimTo(I, s, 0, base, tail, code, 0, v, [], [one], st.heap, v, v + [one], st, clo);
    SubPrim(I.p.w, Sub, rem, 1.0, st.heap);
    PrimTo(I, s, 1, base, tail, code, 1, floor + [a, b], [Num(rem), one], [r], st.heap, v + [one], floor + [a, b, r],
           st, clo);
    DupeTo(I, s, 2, base, tail, code, 2, floor + [a, b, r], floor + [a, b, r, b], st, clo);
    DupeTo(I, s, 3, base, tail, code, 3, floor + [a, b, r, b], floor + [a, b, r, b, a], st, clo);
    SubPrim(I.p.w, Add, cur, d, st.heap);
    PrimTo(I, s, 4, base, tail, code, 4, floor + [a, b, r], [b, a], [Num(cur + d)], st.heap, floor + [a, b, r, b, a],
           floor + [a, b, r, Num(cur + d)], st, clo);
    SwapTo(I, s, 5, base, tail, code, 5, floor + [a, b, r, Num(cur + d)], floor + [a, Num(cur + d), r, b], st, clo);
    PopTo(I, s, 6, base, tail, code, 6, floor + [a, Num(cur + d), r, b], floor + [a, Num(cur + d), r], st, clo);
    BackTo(I, s, 7, base, c, tail, code, 7, floor + [a, Num(cur + d), r], st, clo);
    n := 9;
  }

  // ----- for each item -----

  lemma ForeachEnter(I: Image, c: Ctx, base: State, top: nat, tail: nat, trans: Str, floor: seq<Value>, work: nat,
                     st: St, clo: seq<Clo<nat>>) returns (n: nat)
    requires Ready(I, c, base) && Are(I.slots, top, ForeachHead(tail, trans)) && Are(I.slots, tail, ForeachTail(top))
    ensures var s := At(base, top, floor + [List(work)], st, clo);
            var items := Items(st.heap.lists, work);
            n >= 1 &&
            if items == [] then On(I, s, n, base, tail + 3, floor, st, clo)
            else On(I, s, n, base, top + 2, floor + [List(work)] + [FirstOf(items)], TakeFirst(st, work), clo)
  {
    hide Filled, Fits, Are, At, On, Items, TakeFirst;
    var code := ForeachHead(tail, trans);
    var v := floor + [List(work)];
    var s := At(base, top, v, st, clo);
    Start(I, base, top, v, st, clo);
    DupeTo(I, s, 0, base, top, code, 0, v, v + [List(work)], st, clo);
    PopFirstTo(I, s, 1, base, top, code, 1, v, work, v + [List(work)], st, clo);
    n := 2;
    if Items(st.heap.lists, work) == [] {
      PopTo(I, s, 2, base, tail, ForeachTail(top), 2, v, floor, st, clo);
      n := 3;
    }
  }

  // ----- short circuit -----

  lemma ShortTest(I: Image, c: Ctx, base: State, a: nat, aft: nat, decides: bool, floor: seq<Value>, v: Value, st: St,
                  clo: seq<Clo<nat>>, fuel: nat) returns (n: nat)
    requires Ready(I, c, base) && Tied(I, clo, st.closures) && Are(I.slots, a, ShortCode(aft, decides))
    ensures var s := At(base, a, floor + [v], st, clo);
            match AsBool(v)
            case Err(e) => Meets(I, base, s, floor, 0, n, clo, fuel, Raised(e, st))
            case Ok(b) =>
              if b == decides then On(I, s, n, base, aft, floor + [v], st, clo)
              else On(I, s, n, base, a + 3, floor, st, clo)
  {
    hide Filled, Fits, Are, At, On, Meets, Tied, Run, Step;
    var code := ShortCode(aft, decides);
    var w := floor + [v];
    var s := At(base, a, w, st, clo);
    Start(I, base, a, w, st, clo);
    DupeTo(I, s, 0, base, a, code, 0, w, w + [v], st, clo);
    if AsBool(v).Err? {
      AreIs(I.slots, a, code, 1);
      BranchFails(I, base, a + 1, w, v, aft, decides, 0, AsBool(v).error, st, clo, fuel);
      OnRun(I, s, 1, base, a + 1, w + [v], st, clo);
      Chain(I, base, s, 1, At(base, a + 1, w + [v], st, clo), w, 0, 0, clo, fuel, fuel, Raised(AsBool(v).error, st));
      n := 1;
      Sink(I, base, s, floor, [v], n, clo, fuel, Raised(AsBool(v).error, st), 0);
    } else {
      assert v == Bool(AsBool(v).value);
      BranchTo(I, s, 1, base, a, code, 1, w, AsBool(v).value, w + [v], st, clo);
      n := 2;
      if AsBool(v).value != decides {
        PopTo(I, s, 2, base, a, code, 2, w, floor, st, clo);
        n := 3;
      }
    }
  }

  lemma OnRun(I: Image, s: State, n: nat, base: State, pc: nat, values: seq<Value>, st: St, clo: seq<Clo<nat>>)
    requires On(I, s, n, base, pc, values, st, clo)
    ensures base.calls != [] && Run(I.M(), s, n) == Some(At(base, pc, values, st, clo))
  {
    hide Run, At;
  }
}
