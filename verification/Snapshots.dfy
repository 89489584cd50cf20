/** Loops over lists see the list as it was when they began. The code works through a private copy that it
    consumes as it goes; since no program can get at that copy, whatever the body or closure does to the
    original list, each loop is one over a fixed sequence of items. Counting loops are over a fixed sequence
    of numbers. */
module Snapshots {
  import opened Common
  import opened Bytecode
  import opened Values
  import opened Machine
  import opened Ast
  import opened Source
  import opened Secrets
  import opened Isolation
  import opened Variables

  function WithList(st: St, id: nat, items: seq<Value>): St {
    st.(heap := st.heap.(lists := SetItems(st.heap.lists, id, items)))
  }

  // ----- the loops over a sequence; the lists `work` and `out` are written, but never read -----

  /** Applies a closure to one item after the other; the results. */
  function MapOver(p: Prog, fuel: nat, c: Ctx, f: Value, items: seq<Value>, results: seq<Value>, work: nat, out: nat,
                   st: St): Out<seq<Value>>
    decreases fuel
  {
    if items == [] then Done(results, st)
    else
      var (v, s) :- CallClosureValue(p, fuel, c, f, [items[0]], WithList(st, work, items[1..]));
      if fuel == 0 then OutOfFuel
      else MapOver(p, fuel - 1, c, f, items[1..], results + [v], work, out, Turn(c, WithList(s, out, results + [v])))
  }

  /** The items for which a closure reports true. */
  function KeepOver(p: Prog, fuel: nat, c: Ctx, f: Value, items: seq<Value>, kept: seq<Value>, work: nat, out: nat,
                    st: St): Out<seq<Value>>
    decreases fuel
  {
    if items == [] then Done(kept, st)
    else
      var (v, s) :- CallClosureValue(p, fuel, c, f, [items[0]], WithList(st, work, items[1..]));
      var (b, s') :- Lift(AsBool(v), s);
      var more := if b then kept + [items[0]] else kept;
      if fuel == 0 then OutOfFuel
      else KeepOver(p, fuel - 1, c, f, items[1..], more, work, out, Turn(c, if b then WithList(s', out, more) else s'))
  }

  /** The first item for which a closure reports true, or an empty text. */
  function FindOver(p: Prog, fuel: nat, c: Ctx, f: Value, items: seq<Value>, work: nat, st: St): Out<Value>
    decreases fuel
  {
    if items == [] then Done(Txt([]), st)
    else
      var (v, s) :- CallClosureValue(p, fuel, c, f, [items[0]], WithList(st, work, items[1..]));
      var (b, s') :- Lift(AsBool(v), s);
      if b then Done(items[0], s')
      else if fuel == 0 then OutOfFuel
      else FindOver(p, fuel - 1, c, f, items[1..], work, Turn(c, s'))
  }

  /** Left fold of a closure. */
  function FoldOver(p: Prog, fuel: nat, c: Ctx, f: Value, items: seq<Value>, acc: Value, work: nat, st: St): Out<Value>
    decreases fuel
  {
    if items == [] then Done(acc, st)
    else
      var (v, s) :- CallClosureValue(p, fuel, c, f, [acc, items[0]], WithList(st, work, items[1..]));
      if fuel == 0 then OutOfFuel else FoldOver(p, fuel - 1, c, f, items[1..], v, work, Turn(c, s))
  }

  /** Runs a body for one item after the other. */
  function EachOver(p: Prog, fuel: nat, c: Ctx, name: Str, items: seq<Value>, body: seq<Stmt>, work: nat,
                    st: St): Out<Option<Value>>
    decreases fuel
  {
    if items == [] then Done(None, st)
    else
      var (_, s) :- Bind(p, WithList(st, work, items[1..]), name, items[0]);
      var (r, s') :- ExecAll(p, fuel, c, body, s);
      if r.Some? then Done(r, s') else if fuel == 0 then OutOfFuel
      else EachOver(p, fuel - 1, c, name, items[1..], body, work, Turn(c, s'))
  }

  /** Runs a body for one number after the other. */
  function NumbersOver(p: Prog, fuel: nat, c: Ctx, name: Str, numbers: seq<real>, body: seq<Stmt>,
                       st: St): Out<Option<Value>>
    decreases fuel
  {
    if numbers == [] then Done(None, st)
    else
      var (_, s) :- Bind(p, st, name, Num(numbers[0]));
      var (r, s') :- ExecAll(p, fuel, c, body, s);
      if r.Some? then Done(r, s') else if fuel == 0 then OutOfFuel
      else NumbersOver(p, fuel - 1, c, name, numbers[1..], body, Turn(c, s'))
  }

  // ----- private lists -----

  lemma Reopened(h: Heap, id: nat, items: seq<Value>, secrets: set<nat>)
    requires Sealed(h, secrets) && ProperAll(items, |h.lists|, secrets)
    ensures Sealed(h.(lists := SetItems(h.lists, id, items)), secrets)
  {
  }

  /** The list that is consumed, in a state in which nothing refers to it. */
  ghost predicate Holding(st: St, id: nat, items: seq<Value>, secrets: set<nat>) {
    id in secrets && Sealed(st.heap, secrets) && id < |st.heap.lists| && st.heap.lists[id] == items
  }

  lemma Took(st: St, work: nat, items: seq<Value>, secrets: set<nat>)
    requires Holding(st, work, items, secrets) && items != []
    ensures Items(st.heap.lists, work) == items && TakeFirst(st, work) == WithList(st, work, items[1..])
    ensures Holding(WithList(st, work, items[1..]), work, items[1..], secrets)
    ensures ProperAll([items[0]], |st.heap.lists|, secrets)
            && |WithList(st, work, items[1..]).heap.lists| == |st.heap.lists|
    ensures forall id, other :: id != work && Holding(st, id, other, secrets) ==>
              Holding(WithList(st, work, items[1..]), id, other, secrets)
  {
    hide Sealed;
    ItemsProper(st.heap, work, secrets);
    Reopened(st.heap, work, items[1..], secrets);
  }

  lemma Put(st: St, out: nat, items: seq<Value>, v: Value, secrets: set<nat>)
    requires Holding(st, out, items, secrets) && Proper(v, |st.heap.lists|, secrets)
    ensures Append(st, out, v) == WithList(st, out, items + [v])
            && Holding(WithList(st, out, items + [v]), out, items + [v], secrets)
    ensures forall id, other :: id != out && Holding(st, id, other, secrets) ==>
              Holding(WithList(st, out, items + [v]), id, other, secrets)
  {
    hide Sealed;
    ItemsProper(st.heap, out, secrets);
    Reopened(st.heap, out, items + [v], secrets);
  }

  lemma StillHolding(st: St, s: St, id: nat, items: seq<Value>, secrets: set<nat>)
    requires Holding(st, id, items, secrets) && Safe(st.heap, s.heap, secrets)
    ensures Holding(s, id, items, secrets)
  {
    hide ProperAll, ProperLists;
  }

  lemma HoldingTurn(c: Ctx, st: St, id: nat, items: seq<Value>, secrets: set<nat>)
    requires Holding(st, id, items, secrets)
    ensures Holding(Turn(c, st), id, items, secrets)
  {
    hide Sealed;
  }

  /** A call of a closure while private lists are held. */
  lemma Called(p: Prog, fuel: nat, c: Ctx, f: Value, args: seq<Value>, st: St, id: nat, items: seq<Value>,
               secrets: set<nat>)
    requires Holding(st, id, items, secrets) && ProperAll(args, NewId(st), secrets)
    ensures match CallClosureValue(p, fuel, c, f, args, st)
            case Done(v, s) =>
              && Proper(v, NewId(s), secrets) && |st.heap.lists| <= |s.heap.lists|
              && forall i, other :: Holding(st, i, other, secrets) ==> Holding(s, i, other, secrets)
            case _ => true
  {
    hide Sealed, Safe, ProperAll, Proper, CallClosureValue;
    CallClosureSure(p, fuel, c, f, args, st, secrets);
    var o := CallClosureValue(p, fuel, c, f, args, st);
    if o.Done? {
      Onward(st, o, secrets);
      forall i, other | Holding(st, i, other, secrets) ensures Holding(o.st, i, other, secrets) {
        StillHolding(st, o.st, i, other, secrets);
      }
    }
  }

  // ----- each loop is one over the items at entry -----

  /** A list built in the heap, instead of the sequence of its items. */
  function AsListIn(o: Out<seq<Value>>, out: nat): Out<Value> {
    var (_, s) :- o;
    Done(List(out), s)
  }

  lemma {:induction false} MapLoopIsMap(p: Prog, fuel: nat, c: Ctx, f: Value, items: seq<Value>, results: seq<Value>,
                                        work: nat, out: nat, st: St, secrets: set<nat>)
    requires work != out && Holding(st, work, items, secrets) && Holding(st, out, results, secrets)
    ensures var o := MapOver(p, fuel, c, f, items, results, work, out, st);
            && MapLoop(p, fuel, c, f, work, out, st) == AsListIn(o, out)
            && match o case Done(vs, s) => Items(s.heap.lists, out) == vs && |vs| == |results| + |items| case _ => true
    decreases fuel
  {
    hide Sealed, Safe, CallClosureValue, Proper, ProperAll, WithList, TakeFirst, Append, Turn, Holding;
    HoldingItems(st, work, items, secrets);
    HoldingItems(st, out, results, secrets);
    if items != [] {
      Took(st, work, items, secrets);
      var s := WithList(st, work, items[1..]);
      Called(p, fuel, c, f, [items[0]], s, work, items[1..], secrets);
      var o := CallClosureValue(p, fuel, c, f, [items[0]], s);
      if o.Done? && fuel > 0 {
        Put(o.st, out, results, o.v, secrets);
        var t := WithList(o.st, out, results + [o.v]);
        HoldingTurn(c, t, work, items[1..], secrets);
        HoldingTurn(c, t, out, results + [o.v], secrets);
        MapLoopIsMap(p, fuel - 1, c, f, items[1..], results + [o.v], work, out, Turn(c, t), secrets);
      }
    }
  }

  lemma HoldingItems(st: St, id: nat, items: seq<Value>, secrets: set<nat>)
    requires Holding(st, id, items, secrets)
    ensures Items(st.heap.lists, id) == items
  {
    hide Sealed;
  }

  lemma {:induction false} KeepLoopIsFilter(p: Prog, fuel: nat, c: Ctx, f: Value, items: seq<Value>, kept: seq<Value>,
                                            work: nat, out: nat, st: St, secrets: set<nat>)
    requires work != out && Holding(st, work, items, secrets) && Holding(st, out, kept, secrets)
    ensures var o := KeepOver(p, fuel, c, f, items, kept, work, out, st);
            && KeepLoop(p, fuel, c, f, work, out, st) == AsListIn(o, out)
            && match o case Done(vs, s) => Items(s.heap.lists, out) == vs case _ => true
    decreases fuel
  {
    hide Sealed, Safe, CallClosureValue, ProperAll, WithList, TakeFirst, Append, Turn, Holding;
    HoldingItems(st, work, items, secrets);
    HoldingItems(st, out, kept, secrets);
    if items != [] {
      Took(st, work, items, secrets);
      var s := WithList(st, work, items[1..]);
      Called(p, fuel, c, f, [items[0]], s, work, items[1..], secrets);
      var o := CallClosureValue(p, fuel, c, f, [items[0]], s);
      if o.Done? && AsBool(o.v).Ok? && fuel > 0 {
        assert [items[0]][0] == items[0];
        FirstProper(items[0], |s.heap.lists|, |o.st.heap.lists|, secrets);
        Put(o.st, out, kept, items[0], secrets);
        var b := AsBool(o.v).value;
        var more := if b then kept + [items[0]] else kept;
        var t := if b then WithList(o.st, out, more) else o.st;
        HoldingTurn(c, t, work, items[1..], secrets);
        HoldingTurn(c, t, out, more, secrets);
        KeepLoopIsFilter(p, fuel - 1, c, f, items[1..], more, work, out, Turn(c, t), secrets);
      }
    }
  }

  lemma FirstProper(v: Value, n: nat, m: nat, secrets: set<nat>)
    requires ProperAll([v], n, secrets) && n <= m
    ensures Proper(v, m, secrets)
  {
    assert [v][0] == v;
  }

  lemma {:induction false} FindLoopIsFirst(p: Prog, fuel: nat, c: Ctx, f: Value, items: seq<Value>, work: nat, st: St,
                                           secrets: set<nat>)
    requires Holding(st, work, items, secrets)
    ensures FindLoop(p, fuel, c, f, work, st) == FindOver(p, fuel, c, f, items, work, st)
    decreases fuel
  {
    hide Sealed, Safe, CallClosureValue, Proper, ProperAll, WithList, TakeFirst, Turn, Holding;
    HoldingItems(st, work, items, secrets);
    if items != [] {
      Took(st, work, items, secrets);
      var s := WithList(st, work, items[1..]);
      Called(p, fuel, c, f, [items[0]], s, work, items[1..], secrets);
      var o := CallClosureValue(p, fuel, c, f, [items[0]], s);
      if o.Done? && AsBool(o.v).Ok? && fuel > 0 {
        HoldingTurn(c, o.st, work, items[1..], secrets);
        FindLoopIsFirst(p, fuel - 1, c, f, items[1..], work, Turn(c, o.st), secrets);
      }
    }
  }

  lemma {:induction false} FoldLoopIsFold(p: Prog, fuel: nat, c: Ctx, f: Value, items: seq<Value>, acc: Value,
                                          work: nat, st: St, secrets: set<nat>)
    requires Holding(st, work, items, secrets) && Proper(acc, NewId(st), secrets)
    ensures FoldLoop(p, fuel, c, f, work, acc, st) == FoldOver(p, fuel, c, f, items, acc, work, st)
    decreases fuel
  {
    hide Sealed, Safe, CallClosureValue, Proper, WithList, TakeFirst, Turn, Holding;
    HoldingItems(st, work, items, secrets);
    if items != [] {
      Took(st, work, items, secrets);
      var s := WithList(st, work, items[1..]);
      assert [items[0]][0] == items[0];
      Called(p, fuel, c, f, [acc, items[0]], s, work, items[1..], secrets);
      var o := CallClosureValue(p, fuel, c, f, [acc, items[0]], s);
      if o.Done? && fuel > 0 {
        HoldingTurn(c, o.st, work, items[1..], secrets);
        TurnLists(c, o.st);
        FoldLoopIsFold(p, fuel - 1, c, f, items[1..], o.v, work, Turn(c, o.st), secrets);
      }
    }
  }

  lemma TurnLists(c: Ctx, st: St)
    ensures Turn(c, st).heap == st.heap
  {
  }

  lemma {:induction false} ForeachIsEach(p: Prog, fuel: nat, c: Ctx, name: Str, items: seq<Value>, body: seq<Stmt>,
                                         work: nat, st: St, secrets: set<nat>)
    requires Holding(st, work, items, secrets)
    ensures RunForeach(p, fuel, c, name, work, body, st) == EachOver(p, fuel, c, name, items, body, work, st)
    decreases fuel
  {
    hide Sealed, Safe, SetVariable, Bind, ExecAll, ProperAll, Proper, WithList, TakeFirst, Turn, Holding;
    HoldingItems(st, work, items, secrets);
    if items != [] {
      Took(st, work, items, secrets);
      var t := WithList(st, work, items[1..]);
      FirstProper(items[0], |st.heap.lists|, |t.heap.lists|, secrets);
      HoldingSealed(t, work, items[1..], secrets);
      SetVariableSure(p, t, name, items[0], secrets);
      BindIsSet(p, t, name, items[0]);
      var o := SetVariable(p, t, name, items[0]);
      if o.Done? {
        Onward(t, o, secrets);
        StillHolding(t, o.st, work, items[1..], secrets);
        ExecAllSure(p, fuel, c, body, o.st, secrets);
        var q := ExecAll(p, fuel, c, body, o.st);
        if q.Done? && q.v.None? && fuel > 0 {
          Onward(o.st, q, secrets);
          StillHolding(o.st, q.st, work, items[1..], secrets);
          HoldingTurn(c, q.st, work, items[1..], secrets);
          ForeachIsEach(p, fuel - 1, c, name, items[1..], body, work, Turn(c, q.st), secrets);
        }
      }
    }
  }

  lemma HoldingSealed(st: St, id: nat, items: seq<Value>, secrets: set<nat>)
    requires Holding(st, id, items, secrets)
    ensures Sealed(st.heap, secrets)
  {
  }

  // ----- counting -----

  /** The numbers from `a` towards `b` in steps of one. */
  function Counting(a: real, b: real): (r: seq<real>)
    ensures |r| == Distance(a, b).Floor + 1
  {
    seq(Distance(a, b).Floor + 1, k requires 0 <= k => ForValue(a, b, k))
  }

  function From(numbers: seq<real>, k: nat): seq<real> {
    if k <= |numbers| then numbers[k..] else []
  }

  lemma {:induction false} ForIsCounting(p: Prog, fuel: nat, c: Ctx, name: Str, a: real, b: real, k: nat,
                                         body: seq<Stmt>, st: St)
    requires k <= |Counting(a, b)|
    ensures RunFor(p, fuel, c, name, a, b, k, body, st)
            == NumbersOver(p, fuel, c, name, From(Counting(a, b), k), body, st)
    decreases fuel
  {
    hide SetVariable, Bind, ExecAll, Turn, ForValue;
    var n := Distance(a, b).Floor;
    assert k as real > Distance(a, b) <==> k > n;
    var rest := Counting(a, b)[k..];
    if k <= n {
      assert rest[0] == ForValue(a, b, k) && rest[1..] == Counting(a, b)[k + 1..];
      BindIsSet(p, st, name, Num(rest[0]));
      var o := SetVariable(p, st, name, Num(rest[0]));
      if o.Done? && fuel > 0 {
        var q := ExecAll(p, fuel, c, body, o.st);
        if q.Done? && q.v.None? {
          ForIsCounting(p, fuel - 1, c, name, a, b, k + 1, body, Turn(c, q.st));
        }
      }
    }
  }

  // ----- whole blocks -----

  /** Two new lists that nothing refers to: a copy of `items`, and an empty one. */
  function WithCopy(st: St, items: seq<Value>): St {
    st.(heap := st.heap.(lists := st.heap.lists + [items]))
  }

  lemma CopyHeld(st: St, items: seq<Value>, secrets: set<nat>)
    requires Sealed(st.heap, secrets) && ProperAll(items, |st.heap.lists|, secrets)
    ensures var s := WithCopy(st, items); Holding(s, |st.heap.lists|, items, secrets + {|st.heap.lists|})
    ensures forall id, other :: Holding(st, id, other, secrets) ==>
              Holding(WithCopy(st, items), id, other, secrets + {|st.heap.lists|})
  {
    forall l | 0 <= l < |st.heap.lists|
      ensures ProperAll(st.heap.lists[l], |st.heap.lists| + 1, secrets + {|st.heap.lists|})
    {
    }
  }

  /** The operands of a block that works on a list: the closure, and the items the list has then. */
  ghost predicate Operands(p: Prog, fuel: nat, c: Ctx, f: Expr, list: Expr, st: St, fv: Value, items: seq<Value>,
                           s: St) {
    var o := Eval(p, fuel, c, f, st);
    && o.Done? && o.v == fv
    && var q := Eval(p, fuel, c, list, o.st);
       q.Done? && q.v.List? && items == Items(q.st.heap.lists, q.v.id) && s == q.st
  }

  lemma OperandsSealed(p: Prog, fuel: nat, c: Ctx, f: Expr, list: Expr, st: St, fv: Value, items: seq<Value>, s: St)
    requires Sealed(st.heap, {}) && Operands(p, fuel, c, f, list, st, fv, items, s)
    ensures Sealed(s.heap, {}) && ProperAll(items, NewId(s), {})
    ensures EvalWork(p, fuel, c, f, list, st) == Done((fv, NewId(s)), WithCopy(s, items))
  {
    hide Sealed, Safe, Eval, CopyList, Proper, Items;
    var o := Eval(p, fuel, c, f, st);
    EvalSure(p, fuel, c, f, st, {});
    Onward(st, o, {});
    EvalSure(p, fuel, c, list, o.st, {});
    var q := Eval(p, fuel, c, list, o.st);
    Onward(o.st, q, {});
    ItemsProper(s.heap, q.v.id, {});
    CopySure(p, q.v, q.st, {});
    CopyIs(p, q.v.id, q.st);
  }

  lemma CopyIs(p: Prog, id: nat, st: St)
    ensures CopyList(p, List(id), st) == Done(List(NewId(st)), WithCopy(st, Items(st.heap.lists, id)))
  {
    hide Items;
  }

  /** "Map" gives a new list with the results of the closure on the items that the list had. */
  lemma MapBlock(p: Prog, fuel: nat, c: Ctx, f: Expr, list: Expr, st: St, fv: Value, items: seq<Value>, s: St)
    requires Sealed(st.heap, {}) && Operands(p, fuel, c, f, list, st, fv, items, s)
    ensures var t := WithCopy(s, items);
            var o := MapOver(p, fuel, c, fv, items, [], NewId(s), NewId(t), WithCopy(t, []));
            && Eval(p, fuel, c, Map(f, list), st) == AsListIn(o, NewId(t))
            && match o case Done(vs, r) => Items(r.heap.lists, NewId(t)) == vs && |vs| == |items| case _ => true
  {
    hide Sealed, EvalWork, MapLoop, MapOver, Operands, ProperAll, Items, Holding, AsListIn, ApplyPrim;
    hide CallClosureValue, CallNamed, Capture, EvalAll, EvalLit, EvalLits, EvalReduce;
    hide EvalReduceDynamic, EvalShort, EvalTest, ExprLen, FindLoop, FoldLoop, KeepLoop, Lookup, Lower;
    OperandsSealed(p, fuel, c, f, list, st, fv, items, s);
    var n := |s.heap.lists|;
    TwoLists(s, items);
    MapLoopIsMap(p, fuel, c, fv, items, [], n, n + 1, WithCopy(WithCopy(s, items), []), {} + {n} + {n + 1});
  }

  lemma TwoLists(s: St, items: seq<Value>)
    requires Sealed(s.heap, {}) && ProperAll(items, |s.heap.lists|, {})
    ensures var n := |s.heap.lists|;
            var t := WithCopy(WithCopy(s, items), []);
            Holding(t, n, items, {} + {n} + {n + 1}) && Holding(t, n + 1, [], {} + {n} + {n + 1})
  {
    hide Sealed;
    CopyHeld(s, items, {});
    HoldingSealed(WithCopy(s, items), |s.heap.lists|, items, {} + {|s.heap.lists|});
    CopyHeld(WithCopy(s, items), [], {} + {|s.heap.lists|});
  }

  /** "Keep" gives a new list of those items that the closure reports true for. */
  lemma KeepBlock(p: Prog, fuel: nat, c: Ctx, f: Expr, list: Expr, st: St, fv: Value, items: seq<Value>, s: St)
    requires Sealed(st.heap, {}) && Operands(p, fuel, c, f, list, st, fv, items, s)
    ensures var t := WithCopy(s, items);
            var o := KeepOver(p, fuel, c, fv, items, [], NewId(s), NewId(t), WithCopy(t, []));
            && Eval(p, fuel, c, Keep(f, list), st) == AsListIn(o, NewId(t))
            && match o case Done(vs, r) => Items(r.heap.lists, NewId(t)) == vs case _ => true
  {
    hide Sealed, EvalWork, KeepLoop, KeepOver, Operands, ProperAll, Items, Holding, AsListIn, ApplyPrim;
    hide CallClosureValue, CallNamed, Capture, EvalAll, EvalLit, EvalLits, EvalReduce;
    hide EvalReduceDynamic, EvalShort, EvalTest, ExprLen, FindLoop, FoldLoop, Lookup, Lower, MapLoop;
    OperandsSealed(p, fuel, c, f, list, st, fv, items, s);
    var n := |s.heap.lists|;
    TwoLists(s, items);
    KeepLoopIsFilter(p, fuel, c, fv, items, [], n, n + 1, WithCopy(WithCopy(s, items), []), {} + {n} + {n + 1});
  }

  /** "Find first" gives the first of the items that the closure reports true for, or an empty text. */
  lemma FindBlock(p: Prog, fuel: nat, c: Ctx, f: Expr, list: Expr, st: St, fv: Value, items: seq<Value>, s: St)
    requires Sealed(st.heap, {}) && Operands(p, fuel, c, f, list, st, fv, items, s)
    ensures Eval(p, fuel, c, FindFirst(f, list), st)
            == FindOver(p, fuel, c, fv, items, NewId(s), WithCopy(s, items))
  {
    hide Sealed, EvalWork, FindLoop, FindOver, Operands, ProperAll, Items, Holding, ApplyPrim, CallClosureValue;
    hide CallNamed, Capture, EvalAll, EvalLit, EvalLits, EvalReduce, EvalReduceDynamic, EvalShort;
    hide EvalTest, ExprLen, FoldLoop, KeepLoop, Lookup, Lower, MapLoop;
    OperandsSealed(p, fuel, c, f, list, st, fv, items, s);
    CopyHeld(s, items, {});
    FindLoopIsFirst(p, fuel, c, fv, items, |s.heap.lists|, WithCopy(s, items), {} + {|s.heap.lists|});
  }

  lemma FoldIs(p: Prog, fuel: nat, c: Ctx, f: Expr, list: Expr, st: St, lv: Value, s: St, work: nat, t: St, fv: Value,
               r: St)
    requires Eval(p, fuel, c, list, st) == Done(lv, s) && CopyList(p, lv, s) == Done(List(work), t)
             && Eval(p, fuel, c, f, t) == Done(fv, r)
    ensures var items := Items(r.heap.lists, work);
            Eval(p, fuel, c, FoldWith(f, list), st)
            == if items == [] then Done(Num(0.0), r)
               else FoldLoop(p, fuel, c, fv, work, FirstOf(items), TakeFirst(r, work))
  {
    hide CopyList, FoldLoop, TakeFirst, Items, ApplyPrim, CallClosureValue, CallNamed, Capture, EvalAll, EvalLit;
    hide EvalLits, EvalReduce, EvalReduceDynamic, EvalShort, EvalTest, ExprLen, FindLoop, KeepLoop, Lookup;
    hide Lower, MapLoop, ExprsLen, LitLen, LitsLen;
  }

  function RestOf(items: seq<Value>): seq<Value> {
    if items == [] then [] else items[1..]
  }

  /** "Combine" copies the list first, and then evaluates the closure expression. It gives the left fold of
      the items the list had before that, or zero if it had none. */
  lemma FoldBlock(p: Prog, fuel: nat, c: Ctx, f: Expr, list: Expr, st: St, id: nat, s: St, fv: Value, r: St)
    requires Sealed(st.heap, {}) && Eval(p, fuel, c, list, st) == Done(List(id), s)
    requires Eval(p, fuel, c, f, WithCopy(s, Items(s.heap.lists, id))) == Done(fv, r)
    ensures var items := Items(s.heap.lists, id);
            Eval(p, fuel, c, FoldWith(f, list), st)
            == if items == [] then Done(Num(0.0), r)
               else FoldOver(p, fuel, c, fv, RestOf(items), FirstOf(items), NewId(s),
                             WithList(r, NewId(s), RestOf(items)))
  {
    hide Sealed, Safe, FoldLoop, FoldOver, ProperAll, Proper, CopyList, Eval, Holding, TakeFirst, WithList, WithCopy;
    EvalSure(p, fuel, c, list, st, {});
    Onward(st, Eval(p, fuel, c, list, st), {});
    var items := Items(s.heap.lists, id);
    var n := |s.heap.lists|;
    ItemsProper(s.heap, id, {});
    CopyIs(p, id, s);
    CopyHeld(s, items, {});
    var t := WithCopy(s, items);
    var secrets := {} + {n};
    HoldingSealed(t, n, items, secrets);
    EvalSure(p, fuel, c, f, t, secrets);
    var o := Eval(p, fuel, c, f, t);
    Onward(t, o, secrets);
    StillHolding(t, o.st, n, items, secrets);
    HoldingItems(o.st, n, items, secrets);
    FoldIs(p, fuel, c, f, list, st, List(id), s, n, t, o.v, o.st);
    if items != [] {
      Took(o.st, n, items, secrets);
      FirstProper(items[0], |o.st.heap.lists|, |o.st.heap.lists|, secrets);
      FoldLoopIsFold(p, fuel, c, o.v, items[1..], items[0], n, WithList(o.st, n, items[1..]), secrets);
    }
  }

  /** "For each" runs its body for the items that the list had. */
  lemma ForeachBlock(p: Prog, fuel: nat, c: Ctx, v: Var, list: Expr, body: seq<Stmt>, st: St, id: nat, s: St)
    requires Sealed(st.heap, {}) && Eval(p, fuel, c, list, DeclareIn(st, v.name)) == Done(List(id), s)
    ensures var items := Items(s.heap.lists, id);
            Exec1(p, fuel, c, ForeachLoop(v, list, body), st)
            == EachOver(p, fuel, c, v.trans, items, body, NewId(s), WithCopy(s, items))
  {
    hide Sealed, Safe, RunForeach, EachOver, ProperAll, Proper, CopyList, Holding, DeclareIn, Eval;
    var d := DeclareIn(st, v.name);
    DeclareOneSure(st, v.name, {});
    SafeSealed(st.heap, d.heap, {});
    EvalSure(p, fuel, c, list, d, {});
    Onward(d, Eval(p, fuel, c, list, d), {});
    var items := Items(s.heap.lists, id);
    ItemsProper(s.heap, id, {});
    CopyIs(p, id, s);
    CopyHeld(s, items, {});
    ForeachIsEach(p, fuel, c, v.trans, items, body, |s.heap.lists|, WithCopy(s, items), {} + {|s.heap.lists|});
  }

  /** The numbers step by one from `a` towards `b`. */
  predicate ByOnes(numbers: seq<real>, a: real, b: real) {
    forall k :: 0 <= k < |numbers| ==> numbers[k] == if a > b then a - k as real else a + k as real
  }

  /** "For" runs its body once for each of the numbers start, start plus or minus one, and so on: one more
      than the whole part of their distance. */
  lemma ForBlock(p: Prog, fuel: nat, c: Ctx, v: Var, start: Expr, stop: Expr, body: seq<Stmt>, st: St, a: real, s: St,
                 b: real, t: St)
    requires EvalNum(p, fuel, c, start, DeclareIn(st, v.name)) == Done(a, s)
             && EvalNum(p, fuel, c, stop, s) == Done(b, t)
    ensures Exec1(p, fuel, c, ForLoop(v, start, stop, body), st)
            == NumbersOver(p, fuel, c, v.trans, Counting(a, b), body, t)
    ensures |Counting(a, b)| == (if a < b then b - a else a - b).Floor + 1 && ByOnes(Counting(a, b), a, b)
  {
    hide EvalNum, RunFor, NumbersOver, DeclareIn, Bind;
    ForIsCounting(p, fuel, c, v.trans, a, b, 0, body, t);
    assert Counting(a, b)[0..] == Counting(a, b);
  }
}
