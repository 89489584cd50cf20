/** Lists that no value refers to cannot be read or changed by a program, whatever it does: an operation
    only reaches the lists that its operands and the variables lead to. */
module Secrets {
  import opened Common
  import opened Bytecode
  import opened Values
  import opened Elementwise
  import opened Machine

  /** A value that is not one of the secret lists, and does not refer to a list that is not there. */
  predicate Proper(v: Value, n: int, secrets: set<nat>) {
    v.List? ==> v.id < n && v.id !in secrets
  }

  predicate ProperAll(vs: seq<Value>, n: int, secrets: set<nat>) {
    forall i :: 0 <= i < |vs| ==> Proper(vs[i], n, secrets)
  }

  predicate ProperLists(lists: seq<seq<Value>>, n: int, secrets: set<nat>) {
    forall l :: 0 <= l < |lists| ==> ProperAll(lists[l], n, secrets)
  }

  /** Nothing in the heap refers to a secret list. */
  ghost predicate Sealed(h: Heap, secrets: set<nat>) {
    && (forall i :: i in secrets ==> i < |h.lists|)
    && ProperAll(h.cells, |h.lists|, secrets)
    && ProperLists(h.lists, |h.lists|, secrets)
  }

  /** From `h` to `g` the secret lists stay as they are, and stay secret. */
  ghost predicate Safe(h: Heap, g: Heap, secrets: set<nat>) {
    && Sealed(g, secrets) && |h.lists| <= |g.lists|
    && forall i :: i in secrets && i < |h.lists| ==> g.lists[i] == h.lists[i]
  }

  lemma SafeTwice(h: Heap, g: Heap, f: Heap, secrets: set<nat>)
    requires Sealed(h, secrets) && Safe(h, g, secrets) && Safe(g, f, secrets)
    ensures Safe(h, f, secrets)
  {
    hide ProperAll, ProperLists;
  }

  lemma SafeSame(h: Heap, secrets: set<nat>)
    requires Sealed(h, secrets)
    ensures Safe(h, h, secrets)
  {
  }

  lemma ProperMore(vs: seq<Value>, n: nat, m: nat, secrets: set<nat>)
    requires ProperAll(vs, n, secrets) && n <= m
    ensures ProperAll(vs, m, secrets)
  {
  }

  lemma ItemsProper(h: Heap, id: nat, secrets: set<nat>)
    requires Sealed(h, secrets)
    ensures ProperAll(Items(h.lists, id), |h.lists|, secrets)
  {
  }

  lemma CellProper(h: Heap, c: nat, secrets: set<nat>)
    requires Sealed(h, secrets)
    ensures Proper(Cell(h.cells, c), |h.lists|, secrets)
  {
  }

  // ----- changes of the heap -----

  lemma AllocSafe(h: Heap, items: seq<Value>, secrets: set<nat>)
    requires Sealed(h, secrets) && ProperAll(items, |h.lists|, secrets)
    ensures Safe(h, h.(lists := h.lists + [items]), secrets) && Proper(List(|h.lists|), |h.lists| + 1, secrets)
  {
  }

  lemma SetSafe(h: Heap, id: nat, items: seq<Value>, secrets: set<nat>)
    requires Sealed(h, secrets) && ProperAll(items, |h.lists|, secrets) && id !in secrets
    ensures Safe(h, h.(lists := SetItems(h.lists, id, items)), secrets)
  {
  }

  lemma CellSafe(h: Heap, c: nat, v: Value, secrets: set<nat>)
    requires Sealed(h, secrets) && Proper(v, |h.lists|, secrets)
    ensures Safe(h, h.(cells := SetCell(h.cells, c, v)), secrets)
    ensures Safe(h, h.(cells := h.cells + [v]), secrets)
  {
  }

  /** New lists that refer only to old lists that are not secret, or to each other. */
  lemma MoreSafe(h: Heap, out: seq<seq<Value>>, secrets: set<nat>)
    requires Sealed(h, secrets) && ProperLists(out, |h.lists| + |out|, secrets)
    ensures Safe(h, h.(lists := h.lists + out), secrets)
  {
    forall l | 0 <= l < |h.lists| ensures ProperAll(h.lists[l], |h.lists| + |out|, secrets) {
      ProperMore(h.lists[l], |h.lists|, |h.lists| + |out|, secrets);
    }
    ProperMore(h.cells, |h.lists|, |h.lists| + |out|, secrets);
  }

  lemma {:induction false} DefineAllSafe(locals: Locals, h: Heap, names: seq<Str>, args: seq<Value>, secrets: set<nat>)
    requires |names| == |args| && Sealed(h, secrets) && ProperAll(args, |h.lists|, secrets)
    ensures Safe(h, DefineAll(locals, h, names, args).1, secrets)
    decreases |names|
  {
    hide Sealed, Safe;
    if names == [] {
      SafeSame(h, secrets);
    } else {
      CellSafe(h, 0, args[0], secrets);
      var (l, g) := Define(locals, h, names[0], args[0]);
      SafeSealed(h, g, secrets);
      DefineAllSafe(l, g, names[1..], args[1..], secrets);
      SafeTwice(h, g, DefineAll(locals, h, names, args).1, secrets);
    }
  }

  lemma SafeSealed(h: Heap, g: Heap, secrets: set<nat>)
    requires Safe(h, g, secrets)
    ensures Sealed(g, secrets) && |h.lists| <= |g.lists|
  {
  }

  // ----- elementwise operators -----

  /** New lists hold no references but to new lists. */
  ghost predicate Inward(e: Env, m: Memo) {
    && (forall k :: k in m.cache ==> |e.lists| <= m.cache[k] < |e.lists| + |m.out|)
    && (forall l, i :: 0 <= l < |m.out| && 0 <= i < |m.out[l]| ==> IsNew(m.out[l][i], |e.lists|, |e.lists| + |m.out|))
  }

  predicate IsNew(v: Value, from: nat, to: nat) {
    v.List? ==> from <= v.id < to
  }

  lemma {:induction false} ApplyInward(e: Env, k: Key, m: Memo, known: set<Identity>)
    requires Closed(e, known) && k.x in known && k.y in known && Inward(e, m) && Apply(e, k, m, known).Ok?
    ensures var r := Apply(e, k, m, known).value;
            Inward(e, r.1) && |m.out| <= |r.1.out| && IsNew(r.0, |e.lists|, |e.lists| + |r.1.out|)
    decreases Absent(m, known), if k.matrix then 1 else 0, 0
  {
    hide Absent, Closed, Width, ChildKey;
    if k in m.cache {
    } else if Fans(e, k) {
      var r := |e.lists| + |m.out|;
      AbsentDecreases(m, k, r, m.out + [[]], known);
      FillInward(e, k, r, 0, Memo(m.cache[k := r], m.out + [[]]), known);
    } else if k.matrix {
      ApplyInward(e, Key(k.x, k.y, false), m, known);
    }
  }

  lemma {:induction false} FillInward(e: Env, k: Key, r: nat, i: nat, m: Memo, known: set<Identity>)
    requires Closed(e, known) && k.x in known && k.y in known && Inward(e, m) && Fill(e, k, r, i, m, known).Ok?
    requires |e.lists| <= r < |e.lists| + |m.out|
    ensures var v := Fill(e, k, r, i, m, known).value;
            Inward(e, v.1) && |m.out| <= |v.1.out| && IsNew(v.0, |e.lists|, |e.lists| + |v.1.out|)
    decreases Absent(m, known), 2, if i <= Width(e, k) then Width(e, k) - i else 0
  {
    hide Absent, Closed, Width, Opens;
    if i < Width(e, k) {
      ChildKnown(e, k.x, k.matrix, i, known);
      ChildKnown(e, k.y, k.matrix, i, known);
      ApplyInward(e, ChildKey(e, k, i), m, known);
      var item := Apply(e, ChildKey(e, k, i), m, known).value;
      var next := Push(e, item.1, r, item.0);
      AbsentMonotone(m, next, known);
      FillInward(e, k, r, i + 1, next, known);
    }
  }

  lemma NewIsProper(out: seq<seq<Value>>, from: nat, secrets: set<nat>)
    requires forall l, i :: 0 <= l < |out| && 0 <= i < |out[l]| ==> IsNew(out[l][i], from, from + |out|)
    requires forall i :: i in secrets ==> i < from
    ensures ProperLists(out, from + |out|, secrets)
  {
  }

  lemma BinarySafe(w: World, op: BinaryOp, a: Value, b: Value, h: Heap, secrets: set<nat>)
    requires Sealed(h, secrets) && BinaryOn(w, op, a, b, h.lists).Ok?
    ensures var r := BinaryOn(w, op, a, b, h.lists).value;
            Safe(h, h.(lists := r.1), secrets) && Proper(r.0, |r.1|, secrets)
  {
    hide Apply, Fans, Safe;
    var e := Env(w, op, h.lists, a, b);
    var m := Memo(map[], []);
    ApplyInward(e, RootKey(e), m, Known(e));
    var out := Apply(e, RootKey(e), m, Known(e)).value.1.out;
    NewIsProper(out, |h.lists|, secrets);
    MoreSafe(h, out, secrets);
  }

  ghost predicate InwardUnary(n: nat, path: map<nat, nat>, out: seq<seq<Value>>) {
    && (forall k :: k in path ==> n <= path[k] < n + |out|)
    && (forall l, i :: 0 <= l < |out| && 0 <= i < |out[l]| ==> IsNew(out[l][i], n, n + |out|))
  }

  lemma OpenList(n: nat, path: map<nat, nat>, out: seq<seq<Value>>, id: nat)
    requires InwardUnary(n, path, out)
    ensures InwardUnary(n, path[id := n + |out|], out + [[]])
  {
  }

  lemma CloseList(n: nat, path: map<nat, nat>, id: nat, r: nat, out: seq<seq<Value>>, o: seq<seq<Value>>)
    requires InwardUnary(n, path, out) && InwardUnary(n, path[id := r], o) && |out| <= |o|
    ensures InwardUnary(n, path, o)
  {
  }

  lemma ScalarIsNew(s: Scalar, from: nat, to: nat)
    ensures IsNew(FromScalar(s), from, to)
  {
  }

  lemma {:induction false} UnaryInward(w: World, op: UnaryOp, lists: seq<seq<Value>>, v: Value, path: map<nat, nat>,
                                       out: seq<seq<Value>>, known: set<nat>)
    requires ClosedLists(lists, known) && (v.List? ==> v.id in known) && InwardUnary(|lists|, path, out)
             && ApplyUnary(w, op, lists, v, path, out, known).Ok?
    ensures var r := ApplyUnary(w, op, lists, v, path, out, known).value;
            InwardUnary(|lists|, path, r.1) && |out| <= |r.1| && IsNew(r.0, |lists|, |lists| + |r.1|)
    decreases Unseen(known, path), 0
  {
    hide *;
    UnaryCases(w, op, lists, v, path, out, known);
    if !v.List? {
      ScalarIsNew(Scalar1(w, op, v).value, |lists|, |lists| + |out|);
    } else if v.id in path {
      PathNew(|lists|, path, out, v.id);
    } else {
      var r := |lists| + |out|;
      UnseenLess(known, path, v.id, r);
      OpenList(|lists|, path, out, v.id);
      FillUnaryInward(w, op, lists, v.id, path[v.id := r], r, 0, out + [[]], known);
      CloseList(|lists|, path, v.id, r, out,
                FillUnary(w, op, lists, v.id, path[v.id := r], r, 0, out + [[]], known).value.1);
    }
  }

  lemma PathNew(n: nat, path: map<nat, nat>, out: seq<seq<Value>>, id: nat)
    requires InwardUnary(n, path, out) && id in path
    ensures IsNew(List(path[id]), n, n + |out|)
  {
  }

  lemma {:induction false} FillUnaryInward(w: World, op: UnaryOp, lists: seq<seq<Value>>, id: nat, path: map<nat, nat>,
                                           r: nat, i: nat, out: seq<seq<Value>>, known: set<nat>)
    requires ClosedLists(lists, known) && InwardUnary(|lists|, path, out)
             && FillUnary(w, op, lists, id, path, r, i, out, known).Ok?
    requires |lists| <= r < |lists| + |out|
    ensures var v := FillUnary(w, op, lists, id, path, r, i, out, known).value;
            InwardUnary(|lists|, path, v.1) && |out| <= |v.1| && IsNew(v.0, |lists|, |lists| + |v.1|)
    decreases Unseen(known, path), 1, if i <= |Items(lists, id)| then |Items(lists, id)| - i else 0
  {
    hide Unseen;
    if i < |Items(lists, id)| {
      UnaryInward(w, op, lists, Items(lists, id)[i], path, out, known);
      var item := ApplyUnary(w, op, lists, Items(lists, id)[i], path, out, known).value;
      var o := item.1;
      FillUnaryInward(w, op, lists, id, path, r, i + 1, o[r - |lists| := o[r - |lists|] + [item.0]], known);
    }
  }

  lemma UnarySafe(w: World, op: UnaryOp, v: Value, h: Heap, secrets: set<nat>)
    requires Sealed(h, secrets) && UnaryOn(w, op, v, h.lists).Ok?
    ensures var r := UnaryOn(w, op, v, h.lists).value; Safe(h, h.(lists := r.1), secrets) && Proper(r.0, |r.1|, secrets)
  {
    hide ApplyUnary, Safe;
    UnaryInward(w, op, h.lists, v, map[], [], KnownLists(v, h.lists));
    var out := ApplyUnary(w, op, h.lists, v, map[], [], KnownLists(v, h.lists)).value.1;
    NewIsProper(out, |h.lists|, secrets);
    MoreSafe(h, out, secrets);
  }

  // ----- instructions -----

  ghost predicate PrimSafe(h: Heap, r: Result<(seq<Value>, Heap), Error>, secrets: set<nat>) {
    r.Ok? ==> Safe(h, r.value.1, secrets) && ProperAll(r.value.0, |r.value.1.lists|, secrets)
  }

  lemma PushSafe(h: Heap, v: Value, secrets: set<nat>)
    requires Sealed(h, secrets) && Proper(v, |h.lists|, secrets)
    ensures PrimSafe(h, Push1(v, h), secrets)
  {
  }

  lemma NewSafe(h: Heap, items: seq<Value>, secrets: set<nat>)
    requires Sealed(h, secrets) && ProperAll(items, |h.lists|, secrets)
    ensures PrimSafe(h, Alloc(items, h), secrets)
  {
    hide Safe, Sealed;
    AllocSafe(h, items, secrets);
  }

  lemma {:induction false} FoldSafe(w: World, op: BinaryOp, acc: Value, items: seq<Value>, h: Heap, secrets: set<nat>)
    requires Sealed(h, secrets) && Proper(acc, |h.lists|, secrets)
    ensures PrimSafe(h, FoldBinary(w, op, acc, items, h), secrets)
    decreases |items|
  {
    hide Safe, Sealed, BinaryOn, Proper;
    if items == [] {
      PushSafe(h, acc, secrets);
    } else {
      var r := BinaryOn(w, op, acc, items[0], h.lists);
      if r.Ok? {
        BinarySafe(w, op, acc, items[0], h, secrets);
        var g := h.(lists := r.value.1);
        SafeSealed(h, g, secrets);
        FoldSafe(w, op, r.value.0, items[1..], g, secrets);
        var f := FoldBinary(w, op, r.value.0, items[1..], g);
        if f.Ok? {
          SafeTwice(h, g, f.value.1, secrets);
        }
      }
    }
  }

  lemma {:induction false} ExtremeSafe(w: World, r: Relation, best: Value, items: seq<Value>, h: Heap,
                                       secrets: set<nat>)
    requires Sealed(h, secrets) && Proper(best, |h.lists|, secrets) && ProperAll(items, |h.lists|, secrets)
    ensures PrimSafe(h, Extreme(w, r, best, items, h), secrets)
    decreases |items|
  {
    hide Safe, Sealed, Relates, Proper;
    if items == [] {
      PushSafe(h, best, secrets);
    } else {
      var b := Relates(w, h.lists, r, items[0], best);
      if b.Ok? {
        ExtremeSafe(w, r, if b.value then items[0] else best, items[1..], h, secrets);
      }
    }
  }

  lemma {:induction false} ConcatSafe(h: Heap, items: seq<Value>, secrets: set<nat>)
    requires Sealed(h, secrets) && ConcatLists(h.lists, items).Ok?
    ensures ProperAll(ConcatLists(h.lists, items).value, |h.lists|, secrets)
    decreases |items|
  {
    hide Sealed, Proper;
    if items != [] {
      ItemsProper(h, AsList(items[0]).value, secrets);
      ConcatSafe(h, items[1..], secrets);
    }
  }

  lemma CombineSafe(w: World, op: VariadicOp, items: seq<Value>, h: Heap, secrets: set<nat>)
    requires Sealed(h, secrets) && ProperAll(items, |h.lists|, secrets)
    ensures PrimSafe(h, Combine(w, op, items, h), secrets)
  {
    hide Safe, Sealed, Alloc, Push1, FoldBinary, Extreme, ConcatLists, UnaryOn;
    match op {
      case MakeList => NewSafe(h, items, secrets);
      case ListCat =>
        if ConcatLists(h.lists, items).Ok? {
          ConcatSafe(h, items, secrets);
          NewSafe(h, ConcatLists(h.lists, items).value, secrets);
        }
      case MinOf =>
        if items != [] {
          ExtremeSafe(w, Less, items[0], items[1..], h, secrets);
        }
      case MaxOf =>
        if items != [] {
          ExtremeSafe(w, Greater, items[0], items[1..], h, secrets);
        }
      case _ =>
        if items == [] {
          PushSafe(h, Num(if op.AddAll? then 0.0 else 1.0), secrets);
        } else if |items| == 1 {
          if UnaryOn(w, ToNumber, items[0], h.lists).Ok? {
            UnarySafe(w, ToNumber, items[0], h, secrets);
            OneSafe(h, h.(lists := UnaryOn(w, ToNumber, items[0], h.lists).value.1),
                    UnaryOn(w, ToNumber, items[0], h.lists).value.0, secrets);
          }
        } else {
          FoldSafe(w, if op.AddAll? then Add else Mul, items[0], items[1..], h, secrets);
        }
    }
  }

  lemma OneSafe(h: Heap, g: Heap, v: Value, secrets: set<nat>)
    requires Safe(h, g, secrets) && Proper(v, |g.lists|, secrets)
    ensures PrimSafe(h, Push1(v, g), secrets)
  {
  }

  lemma UpdateSafe(h: Heap, id: nat, items: seq<Value>, secrets: set<nat>)
    requires Sealed(h, secrets) && ProperAll(items, |h.lists|, secrets) && id !in secrets
    ensures PrimSafe(h, Ok(([], h.(lists := SetItems(h.lists, id, items)))), secrets)
  {
    hide Safe, Sealed;
    SetSafe(h, id, items, secrets);
  }

  lemma MakesList(ins: Instruction, args: seq<Value>, h: Heap, secrets: set<nat>)
    requires ins.ListCons? || ins.ListCdr? || ins.ListRev?
    requires |args| >= 1 && (ins.ListCons? ==> |args| == 2) && Sealed(h, secrets) && ProperAll(args, |h.lists|, secrets)
    ensures PrimSafe(h, OnList(ins, args, h), secrets)
  {
    hide Sealed, PrimSafe, Alloc;
    var l := AsList(args[|args| - 1]);
    if l.Err? {
      FailedSafe(h, l.error, secrets);
    } else {
      var items := Items(h.lists, l.value);
      var n := |items|;
      ItemsProper(h, l.value, secrets);
      if ins.ListCons? {
        NewSafe(h, [args[0]] + items, secrets);
      } else if ins.ListRev? {
        NewSafe(h, seq(n, i requires 0 <= i < n => items[n - 1 - i]), secrets);
      } else if n > 0 {
        NewSafe(h, items[1..], secrets);
      } else {
        FailedSafe(h, IndexOutOfBounds(1, 0), secrets);
      }
    }
  }

  lemma ReadsList(ins: Instruction, args: seq<Value>, h: Heap, secrets: set<nat>)
    requires ins.ListIsEmpty? || ins.ListLength? || ins.ListGetLast?
    requires |args| >= 1 && Sealed(h, secrets) && ProperAll(args, |h.lists|, secrets)
    ensures PrimSafe(h, OnList(ins, args, h), secrets)
  {
    hide Sealed, PrimSafe, Push1;
    var l := AsList(args[|args| - 1]);
    if l.Err? {
      FailedSafe(h, l.error, secrets);
    } else {
      var items := Items(h.lists, l.value);
      var n := |items|;
      ItemsProper(h, l.value, secrets);
      if ins.ListIsEmpty? {
        PushSafe(h, Bool(n == 0), secrets);
      } else if ins.ListLength? {
        PushSafe(h, Num(n as real), secrets);
      } else if n > 0 {
        PushSafe(h, items[n - 1], secrets);
      } else {
        FailedSafe(h, IndexOutOfBounds(1, 0), secrets);
      }
    }
  }

  lemma ChangesList(ins: Instruction, args: seq<Value>, h: Heap, secrets: set<nat>)
    requires ins.ListInsertLast? || ins.ListRemoveLast? || ins.ListRemoveAll?
    requires |args| >= 1 && (ins.ListInsertLast? ==> |args| == 2) && Sealed(h, secrets)
             && ProperAll(args, |h.lists|, secrets)
    ensures PrimSafe(h, OnList(ins, args, h), secrets)
  {
    hide Sealed, PrimSafe;
    var l := AsList(args[|args| - 1]);
    if l.Err? {
      FailedSafe(h, l.error, secrets);
    } else {
      var items := Items(h.lists, l.value);
      var n := |items|;
      ItemsProper(h, l.value, secrets);
      assert Proper(args[|args| - 1], |h.lists|, secrets);
      if ins.ListInsertLast? {
        UpdateSafe(h, l.value, items + [args[0]], secrets);
      } else if ins.ListRemoveAll? {
        UpdateSafe(h, l.value, [], secrets);
      } else if n > 0 {
        UpdateSafe(h, l.value, items[..n - 1], secrets);
      } else {
        FailedSafe(h, IndexOutOfBounds(1, 0), secrets);
      }
    }
  }

  lemma FailedSafe(h: Heap, err: Error, secrets: set<nat>)
    ensures PrimSafe(h, Err(err), secrets)
  {
  }

  lemma AssignLastSafe(list: Value, v: Value, h: Heap, secrets: set<nat>)
    requires Sealed(h, secrets) && Proper(list, |h.lists|, secrets) && Proper(v, |h.lists|, secrets)
    ensures PrimSafe(h, AssignLast(list, v, h), secrets)
  {
    hide Sealed, Safe;
    if list.List? && Items(h.lists, list.id) != [] {
      var items := Items(h.lists, list.id);
      ItemsProper(h, list.id, secrets);
      UpdateSafe(h, list.id, items[|items| - 1 := v], secrets);
    }
  }

  /** Instructions cannot get at the secret lists. */
  lemma PrimIsSafe(w: World, ins: Instruction, args: seq<Value>, h: Heap, secrets: set<nat>)
    requires Arity(ins) == Some(|args|) && Sealed(h, secrets) && ProperAll(args, |h.lists|, secrets)
    ensures PrimSafe(h, Prim(w, ins, args, h), secrets)
  {
    hide Sealed, Safe, BinaryOn, UnaryOn, Relates, Combine, AssignLast, OnList;
    if ins.Binary? {
      if BinaryOn(w, ins.bop, args[0], args[1], h.lists).Ok? {
        BinarySafe(w, ins.bop, args[0], args[1], h, secrets);
      }
    } else if ins.Unary? {
      if UnaryOn(w, ins.uop, args[0], h.lists).Ok? {
        UnarySafe(w, ins.uop, args[0], h, secrets);
      }
    } else if ins.Variadic? {
      if ins.len.Fixed? {
        CombineSafe(w, ins.vop, args, h, secrets);
      } else if AsList(args[0]).Ok? {
        ItemsProper(h, AsList(args[0]).value, secrets);
        CombineSafe(w, ins.vop, Items(h.lists, AsList(args[0]).value), h, secrets);
      }
    } else if ins.ListAssignLast? {
      AssignLastSafe(args[0], args[1], h, secrets);
    } else if ins.ListCons? || ins.ListCdr? || ins.ListRev? {
      MakesList(ins, args, h, secrets);
    } else if ins.ListIsEmpty? || ins.ListLength? || ins.ListGetLast? {
      ReadsList(ins, args, h, secrets);
    } else if ins.ListInsertLast? || ins.ListRemoveLast? || ins.ListRemoveAll? {
      ChangesList(ins, args, h, secrets);
    } else {
      SafeSame(h, secrets);
    }
  }
}
