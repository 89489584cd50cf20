/** The straight stretches of the compiled loops: what one pass over them does to the stack. */
module Rounds {
  import opened Common
  import opened Bytecode
  import opened Values
  import opened Elementwise
  import opened Machine
  import opened Ast
  import opened Source
  import opened Codegen
  import opened Simulation

  /** The usual standing facts. */
  ghost predicate Ready(I: Image, c: Ctx, base: State) {
    base.calls != [] && Filled(I) && Fits(c, base)
  }

  // ----- map: f, work list, result list on the stack -----

  lemma MapEnter(I: Image, c: Ctx, base: State, q: nat, floor: seq<Value>, f: Value, work: nat, out: nat, st: St,
                 clo: seq<Clo<nat>>) returns (n: nat)
    requires Ready(I, c, base) && Are(I.slots, q, MapCode(q))
    ensures var s := At(base, q + 2, floor + [f, List(work), List(out)], st, clo);
            var items := Items(st.heap.lists, work);
            n >= 1 &&
            if items == [] then On(I, s, n, base, q + 14, floor + [List(out)], st, clo)
            else On(I, s, n, base, q + 5, floor + [f, List(work), List(out)] + [f] + [FirstOf(items)],
                    TakeFirst(st, work), clo)
  {
    hide Filled, Fits, Are, At, On, Items, TakeFirst;
    var code := MapCode(q);
    var v := floor + [f, List(work), List(out)];
    var s := At(base, q + 2, v, st, clo);
    Start(I, base, q + 2, v, st, clo);
    DupeTo(I, s, 0, base, q, code, 2, v, v + [f], st, clo);
    DupeTo(I, s, 1, base, q, code, 3, v + [f], v + [f] + [List(work)], st, clo);
    PopFirstTo(I, s, 2, base, q, code, 4, v + [f], work, v + [f] + [List(work)], st, clo);
    n := 3;
    if Items(st.heap.lists, work) == [] {
      var o := List(out);
      SwapTo(I, s, 3, base, q, code, 10, v + [f], floor + [o, List(work), f, f], st, clo);
      PopTo(I, s, 4, base, q, code, 11, floor + [o, List(work), f, f], floor + [o, List(work), f], st, clo);
      PopTo(I, s, 5, base, q, code, 12, floor + [o, List(work), f], floor + [o, List(work)], st, clo);
      PopTo(I, s, 6, base, q, code, 13, floor + [o, List(work)], floor + [o], st, clo);
      n := 7;
    }
  }

  lemma AppendPrim(w: World, list: nat, v: Value, heap: Heap)
    ensures Prim(w, ListInsertLast, [v, List(list)], heap)
            == Ok(([], heap.(lists := SetItems(heap.lists, list, Items(heap.lists, list) + [v]))))
  {
    hide SetItems, Items, BinaryOn, UnaryOn, Combine, Relates;
  }

  lemma MapAppend(I: Image, c: Ctx, base: State, q: nat, floor: seq<Value>, f: Value, work: nat, out: nat, v: Value,
                  st: St, clo: seq<Clo<nat>>) returns (n: nat)
    requires Ready(I, c, base) && Are(I.slots, q, MapCode(q))
    ensures n >= 1
    ensures On(I, At(base, q + 6, floor + [f, List(work), List(out)] + [v], st, clo), n, base, q + 2,
               floor + [f, List(work), List(out)], Turn(c, Append(st, out, v)), clo)
  {
    hide Filled, Fits, Are, At, On, Items, SetItems, Turn, Prim;
    var code := MapCode(q);
    var b := floor + [f, List(work), List(out)];
    var s := At(base, q + 6, b + [v], st, clo);
    Start(I, base, q + 6, b + [v], st, clo);
    DupeTo(I, s, 0, base, q, code, 6, b + [v], b + [v, List(out)], st, clo);
    AppendPrim(I.p.w, out, v, st.heap);
    var st' := Append(st, out, v);
    PrimTo(I, s, 1, base, q, code, 7, b, [v, List(out)], [], st'.heap, b + [v, List(out)], b, st, clo);
    BackTo(I, s, 2, base, c, q, code, 8, b, st', clo);
    n := 4;
  }

  // ----- keep -----

  lemma KeepEnter(I: Image, c: Ctx, base: State, q: nat, floor: seq<Value>, f: Value, work: nat, out: nat, st: St,
                  clo: seq<Clo<nat>>) returns (n: nat)
    requires Ready(I, c, base) && Are(I.slots, q, KeepCode(q))
    ensures var s := At(base, q + 2, floor + [f, List(work), List(out)], st, clo);
            var items := Items(st.heap.lists, work);
            n >= 1 &&
            if items == [] then On(I, s, n, base, q + 17, floor + [List(out)], st, clo)
            else On(I, s, n, base, q + 6, floor + [f, List(work), List(out), FirstOf(items)] + [f] + [FirstOf(items)],
                    TakeFirst(st, work), clo)
  {
    hide Filled, Fits, Are, At, On, Items, TakeFirst;
    var code := KeepCode(q);
    var o := List(out);
    var v := floor + [f, List(work), o];
    var s := At(base, q + 2, v, st, clo);
    Start(I, base, q + 2, v, st, clo);
    DupeTo(I, s, 0, base, q, code, 2, v, v + [List(work)], st, clo);
    PopFirstTo(I, s, 1, base, q, code, 3, v, work, v + [List(work)], st, clo);
    var items := Items(st.heap.lists, work);
    if items == [] {
      SwapTo(I, s, 2, base, q, code, 14, v, floor + [o, List(work), f], st, clo);
      PopTo(I, s, 3, base, q, code, 15, floor + [o, List(work), f], floor + [o, List(work)], st, clo);
      PopTo(I, s, 4, base, q, code, 16, floor + [o, List(work)], floor + [o], st, clo);
      n := 5;
    } else {
      var st' := TakeFirst(st, work);
      var b := floor + [f, List(work), o, items[0]];
      assert v + [items[0]] == b;
      DupeTo(I, s, 2, base, q, code, 4, b, b + [f], st', clo);
      DupeTo(I, s, 3, base, q, code, 5, b + [f], b + [f] + [items[0]], st', clo);
      n := 4;
    }
  }

  lemma KeepDecide(I: Image, c: Ctx, base: State, q: nat, floor: seq<Value>, f: Value, work: nat, out: nat,
                   item: Value, keep: bool, st: St, clo: seq<Clo<nat>>)
    returns (n: nat)
    requires Ready(I, c, base) && Are(I.slots, q, KeepCode(q))
    ensures n >= 1
    ensures On(I, At(base, q + 7, floor + [f, List(work), List(out), item] + [Bool(keep)], st, clo), n, base, q + 2,
               floor + [f, List(work), List(out)], Turn(c, if keep then Append(st, out, item) else st), clo)
  {
    hide Filled, Fits, Are, At, On, Items, SetItems, Turn, Prim;
    var code := KeepCode(q);
    var o := List(out);
    var a := floor + [f, List(work), o];
    var b := floor + [f, List(work), o, item];
    var s := At(base, q + 7, b + [Bool(keep)], st, clo);
    Start(I, base, q + 7, b + [Bool(keep)], st, clo);
    BranchTo(I, s, 0, base, q, code, 7, b, keep, b + [Bool(keep)], st, clo);
    if keep {
      DupeTo(I, s, 1, base, q, code, 8, b, a + [item, o], st, clo);
      AppendPrim(I.p.w, out, item, st.heap);
      var st' := Append(st, out, item);
      PrimTo(I, s, 2, base, q, code, 9, a, [item, o], [], st'.heap, a + [item, o], a, st, clo);
      JumpTo(I, s, 3, base, q, code, 10, a, st', clo);
      BackTo(I, s, 4, base, c, q, code, 12, a, st', clo);
      n := 6;
    } else {
      PopTo(I, s, 1, base, q, code, 11, b, a, st, clo);
      BackTo(I, s, 2, base, c, q, code, 12, a, st, clo);
      n := 4;
    }
  }

  // ----- find first: f, work list -----

  lemma FindEnter(I: Image, c: Ctx, base: State, q: nat, floor: seq<Value>, f: Value, work: nat, st: St,
                  clo: seq<Clo<nat>>) returns (n: nat)
    requires Ready(I, c, base) && Are(I.slots, q, FindCode(q))
    ensures var s := At(base, q + 1, floor + [f, List(work)], st, clo);
            var items := Items(st.heap.lists, work);
            n >= 1 &&
            if items == [] then On(I, s, n, base, q + 14, floor + [Txt([])], st, clo)
            else On(I, s, n, base, q + 5, floor + [f, List(work), FirstOf(items)] + [f] + [FirstOf(items)],
                    TakeFirst(st, work), clo)
  {
    hide Filled, Fits, Are, At, On, Items, TakeFirst, Arity, BinaryOn, Combine, OnList, Relates, UnaryOn;
    var code := FindCode(q);
    var v := floor + [f, List(work)];
    var s := At(base, q + 1, v, st, clo);
    Start(I, base, q + 1, v, st, clo);
    DupeTo(I, s, 0, base, q, code, 1, v, v + [List(work)], st, clo);
    PopFirstTo(I, s, 1, base, q, code, 2, v, work, v + [List(work)], st, clo);
    var items := Items(st.heap.lists, work);
    if items == [] {
      TextPrim(I.p.w, st.heap);
      PrimTo(I, s, 2, base, q, code, 10, v, [], [Txt([])], st.heap, v, v + [Txt([])], st, clo);
      n := FindLeave(I, c, base, q, floor, f, work, Txt([]), st, clo);
      assert v + [Txt([])] == floor + [f, List(work), Txt([])];
      OnTwo(I, s, 3, base, q + 11, v + [Txt([])], st, clo, n, base, q + 14, floor + [Txt([])], st, clo);
      n := n + 3;
    } else {
      var st' := TakeFirst(st, work);
      var b := floor + [f, List(work), items[0]];
      assert v + [items[0]] == b;
      DupeTo(I, s, 2, base, q, code, 3, b, b + [f], st', clo);
      DupeTo(I, s, 3, base, q, code, 4, b + [f], b + [f] + [items[0]], st', clo);
      n := 4;
    }
  }

  lemma TextPrim(w: World, heap: Heap)
    ensures Prim(w, PushString([]), [], heap) == Ok(([Txt([])], heap))
  {
    hide BinaryOn, UnaryOn, Combine, Relates, OnList;
  }

  /** The answer is on top: drop what is below it. */
  lemma FindLeave(I: Image, c: Ctx, base: State, q: nat, floor: seq<Value>, f: Value, work: nat, v: Value, st: St,
                  clo: seq<Clo<nat>>) returns (n: nat)
    requires Ready(I, c, base) && Are(I.slots, q, FindCode(q))
    ensures On(I, At(base, q + 11, floor + [f, List(work), v], st, clo), n, base, q + 14, floor + [v], st, clo)
  {
    hide Filled, Fits, Are, At, On;
    var code := FindCode(q);
    var s := At(base, q + 11, floor + [f, List(work), v], st, clo);
    Start(I, base, q + 11, floor + [f, List(work), v], st, clo);
    SwapTo(I, s, 0, base, q, code, 11, floor + [f, List(work), v], floor + [v, List(work), f], st, clo);
    PopTo(I, s, 1, base, q, code, 12, floor + [v, List(work), f], floor + [v, List(work)], st, clo);
    PopTo(I, s, 2, base, q, code, 13, floor + [v, List(work)], floor + [v], st, clo);
    n := 3;
  }

  lemma FindDecide(I: Image, c: Ctx, base: State, q: nat, floor: seq<Value>, f: Value, work: nat, item: Value,
                   found: bool, st: St, clo: seq<Clo<nat>>)
    returns (n: nat)
    requires Ready(I, c, base) && Are(I.slots, q, FindCode(q))
    ensures n >= 1
    ensures var s := At(base, q + 6, floor + [f, List(work), item] + [Bool(found)], st, clo);
            if found then On(I, s, n, base, q + 14, floor + [item], st, clo)
            else On(I, s, n, base, q + 1, floor + [f, List(work)], Turn(c, st), clo)
  {
    hide Filled, Fits, Are, At, On, Turn;
    var code := FindCode(q);
    var b := floor + [f, List(work), item];
    var s := At(base, q + 6, b + [Bool(found)], st, clo);
    Start(I, base, q + 6, b + [Bool(found)], st, clo);
    BranchTo(I, s, 0, base, q, code, 6, b, found, b + [Bool(found)], st, clo);
    if found {
      n := FindLeave(I, c, base, q, floor, f, work, item, st, clo);
      OnTwo(I, s, 1, base, q + 11, b, st, clo, n, base, q + 14, floor + [item], st, clo);
      n := n + 1;
    } else {
      PopTo(I, s, 1, base, q, code, 7, b, floor + [f, List(work)], st, clo);
      BackTo(I, s, 2, base, c, q, code, 8, floor + [f, List(work)], st, clo);
      n := 4;
    }
  }

  // ----- combine: work list, f, then the accumulated value -----

  lemma FoldEnter(I: Image, c: Ctx, base: State, q: nat, floor: seq<Value>, f: Value, work: nat, st: St,
                  clo: seq<Clo<nat>>) returns (n: nat)
    requires Ready(I, c, base) && Are(I.slots, q, FoldCode(q))
    ensures var s := At(base, q, floor + [List(work), f], st, clo);
            var items := Items(st.heap.lists, work);
            n >= 1 &&
            if items == [] then On(I, s, n, base, q + 15, floor + [Num(0.0)], st, clo)
            else On(I, s, n, base, q + 2, floor + [List(work), f, FirstOf(items)], TakeFirst(st, work), clo)
  {
    hide Filled, Fits, Are, At, On, Items, TakeFirst, Arity, BinaryOn, Combine, OnList, Relates, UnaryOn;
    var code := FoldCode(q);
    var v := floor + [List(work), f];
    var s := At(base, q, v, st, clo);
    Start(I, base, q, v, st, clo);
    DupeTo(I, s, 0, base, q, code, 0, v, v + [List(work)], st, clo);
    PopFirstTo(I, s, 1, base, q, code, 1, v, work, v + [List(work)], st, clo);
    var items := Items(st.heap.lists, work);
    n := 2;
    if items == [] {
      IntPrim(I.p.w, 0, st.heap);
      PrimTo(I, s, 2, base, q, code, 11, v, [], [Num(0.0)], st.heap, v, v + [Num(0.0)], st, clo);
      n := FoldLeave(I, c, base, q, floor, f, work, Num(0.0), st, clo);
      assert v + [Num(0.0)] == floor + [List(work), f, Num(0.0)];
      OnTwo(I, s, 3, base, q + 12, v + [Num(0.0)], st, clo, n, base, q + 15, floor + [Num(0.0)], st, clo);
      n := n + 3;
    } else {
      assert v + [items[0]] == floor + [List(work), f, items[0]];
    }
  }

  lemma IntPrim(w: World, k: I32, heap: Heap)
    ensures Prim(w, PushInt(k), [], heap) == Ok(([Num(k as real)], heap))
  {
    hide BinaryOn, UnaryOn, Combine, Relates, OnList;
  }

  lemma FoldLeave(I: Image, c: Ctx, base: State, q: nat, floor: seq<Value>, f: Value, work: nat, v: Value, st: St,
                  clo: seq<Clo<nat>>) returns (n: nat)
    requires Ready(I, c, base) && Are(I.slots, q, FoldCode(q))
    ensures On(I, At(base, q + 12, floor + [List(work), f, v], st, clo), n, base, q + 15, floor + [v], st, clo)
  {
    hide Filled, Fits, Are, At, On;
    var code := FoldCode(q);
    var s := At(base, q + 12, floor + [List(work), f, v], st, clo);
    Start(I, base, q + 12, floor + [List(work), f, v], st, clo);
    SwapTo(I, s, 0, base, q, code, 12, floor + [List(work), f, v], floor + [v, f, List(work)], st, clo);
    PopTo(I, s, 1, base, q, code, 13, floor + [v, f, List(work)], floor + [v, f], st, clo);
    PopTo(I, s, 2, base, q, code, 14, floor + [v, f], floor + [v], st, clo);
    n := 3;
  }

  lemma FoldRound(I: Image, c: Ctx, base: State, q: nat, floor: seq<Value>, f: Value, work: nat, acc: Value, st: St,
                  clo: seq<Clo<nat>>) returns (n: nat)
    requires Ready(I, c, base) && Are(I.slots, q, FoldCode(q))
    ensures var s := At(base, q + 2, floor + [List(work), f, acc], st, clo);
            var items := Items(st.heap.lists, work);
            n >= 1 &&
            if items == [] then On(I, s, n, base, q + 15, floor + [acc], st, clo)
            else On(I, s, n, base, q + 6, floor + [List(work), f] + [f] + [acc, FirstOf(items)], TakeFirst(st, work),
                    clo)
  {
    hide Filled, Fits, Are, At, On, Items, TakeFirst;
    var code := FoldCode(q);
    var v := floor + [List(work), f, acc];
    var s := At(base, q + 2, v, st, clo);
    Start(I, base, q + 2, v, st, clo);
    DupeTo(I, s, 0, base, q, code, 2, v, v + [f], st, clo);
    DupeTo(I, s, 1, base, q, code, 3, v + [f], v + [f] + [List(work)], st, clo);
    PopFirstTo(I, s, 2, base, q, code, 4, v + [f], work, v + [f] + [List(work)], st, clo);
    var items := Items(st.heap.lists, work);
    if items == [] {
      PopTo(I, s, 3, base, q, code, 9, v + [f], v, st, clo);
      JumpTo(I, s, 4, base, q, code, 10, v, st, clo);
      n := FoldLeave(I, c, base, q, floor, f, work, acc, st, clo);
      OnTwo(I, s, 5, base, q + 12, v, st, clo, n, base, q + 15, floor + [acc], st, clo);
      n := n + 5;
    } else {
      SwapTo(I, s, 3, base, q, code, 5, v + [f] + [items[0]], floor + [List(work), f] + [f] + [acc, items[0]],
             TakeFirst(st, work), clo);
      n := 4;
    }
  }

  lemma FoldBack(I: Image, c: Ctx, base: State, q: nat, values: seq<Value>, st: St, clo: seq<Clo<nat>>) returns (n: nat)
    requires Ready(I, c, base) && Are(I.slots, q, FoldCode(q))
    ensures n >= 1 && On(I, At(base, q + 7, values, st, clo), n, base, q + 2, values, Turn(c, st), clo)
  {
    hide Filled, Fits, Are, At, On, Turn;
    Start(I, base, q + 7, values, st, clo);
    BackTo(I, At(base, q + 7, values, st, clo), 0, base, c, q, FoldCode(q), 7, values, st, clo);
    n := 2;
  }
}
