/** What the instructions that work on operands do, said of the items of lists and of numbers. */
module Operands {
  import opened Common
  import opened Bytecode
  import opened Values
  import opened Elementwise
  import opened Machine
  import opened Operators

  // ----- lists -----

  /** No list but `id` has changed. */
  ghost predicate Keeps(before: seq<seq<Value>>, after: seq<seq<Value>>, id: nat) {
    id < |before| == |after| && forall j :: 0 <= j < |before| && j != id ==> after[j] == before[j]
  }

  /** All lists are as before, and there is a new one, which is what the instruction leaves. */
  ghost predicate Gains(before: seq<seq<Value>>, after: seq<seq<Value>>, vs: seq<Value>) {
    && vs == [List(|before|)] && |after| == |before| + 1
    && forall j :: 0 <= j < |before| ==> after[j] == before[j]
  }

  /** The items of a list that is made from another one. */
  ghost predicate NewItems(ins: Instruction, args: seq<Value>, items: seq<Value>, r: seq<Value>) {
    var n := |items|;
    || (ins.ListCons? && |args| == 2 && |r| == n + 1 && r[0] == args[0]
        && forall i :: 0 <= i < n ==> r[i + 1] == items[i])
    || (ins.ListCdr? && |args| == 1 && n == |r| + 1 && forall i :: 0 <= i < |r| ==> r[i] == items[i + 1])
    || (ins.ListRev? && |args| == 1 && |r| == n && forall i :: 0 <= i < n ==> r[i] == items[n - 1 - i])
  }

  /** The items of a list that is changed in place. */
  ghost predicate ChangedItems(ins: Instruction, args: seq<Value>, items: seq<Value>, r: seq<Value>) {
    var n := |items|;
    || (ins.ListInsertLast? && |args| == 2 && |r| == n + 1 && r[n] == args[0]
        && forall i :: 0 <= i < n ==> r[i] == items[i])
    || (ins.ListRemoveLast? && |args| == 1 && n == |r| + 1 && forall i :: 0 <= i < |r| ==> r[i] == items[i])
    || (ins.ListRemoveAll? && |args| == 1 && r == [])
  }

  /** What is read off a list. */
  ghost predicate ReadOff(ins: Instruction, args: seq<Value>, items: seq<Value>, v: Value) {
    && |args| == 1
    && (|| (ins.ListIsEmpty? && v == Bool(|items| == 0)) || (ins.ListLength? && v == Num(|items| as real))
        || (ins.ListGetLast? && items != [] && v == items[|items| - 1]))
  }

  predicate ListLast(ins: Instruction) {
    || ins.ListCons? || ins.ListCdr? || ins.ListRev? || ins.ListInsertLast? || ins.ListRemoveLast? || ins.ListRemoveAll?
    || ins.ListIsEmpty? || ins.ListLength? || ins.ListGetLast?
  }

  predicate NeedsItem(ins: Instruction) {
    ins.ListCdr? || ins.ListGetLast? || ins.ListRemoveLast? || ins.ListAssignLast?
  }

  /** An operand that should be a list and is none, and the error it gives. */
  ghost predicate NoList(v: Value, err: Error) {
    !v.List? && err.Conversion? && HasKind(v, err.got) && err.expected == ListT
  }

  /** The last item of a list is replaced. */
  ghost predicate AssignsLast(args: seq<Value>, items: seq<Value>, r: seq<Value>) {
    && |args| == 2 && items != [] && |r| == |items| && r[|r| - 1] == args[1]
    && forall i :: 0 <= i < |r| - 1 ==> r[i] == items[i]
  }

  /** The operand that should be a list. */
  function ListOperand(ins: Instruction, args: seq<Value>): Value {
    if args == [] then Num(0.0) else if ins.ListAssignLast? then args[0] else args[|args| - 1]
  }

  /** What an instruction on a list makes of its operands: the values it leaves, and all lists afterwards. */
  ghost predicate MeansOnList(ins: Instruction, args: seq<Value>, before: seq<seq<Value>>, vs: seq<Value>,
                              after: seq<seq<Value>>) {
    var l := ListOperand(ins, args);
    && l.List? && l.id < |before|
    && var items := before[l.id];
       || (Gains(before, after, vs) && NewItems(ins, args, items, after[|before|]))
       || (Keeps(before, after, l.id) && vs == [] && ChangedItems(ins, args, items, after[l.id]))
       || (Keeps(before, after, l.id) && vs == [] && ins.ListAssignLast? && AssignsLast(args, items, after[l.id]))
       || (|vs| == 1 && after == before && ReadOff(ins, args, items, vs[0]))
  }

  ghost predicate RefusesOnList(ins: Instruction, args: seq<Value>, before: seq<seq<Value>>, err: Error) {
    var l := ListOperand(ins, args);
    || NoList(l, err)
    || (NeedsItem(ins) && l.List? && l.id < |before| && before[l.id] == [] && err == IndexOutOfBounds(1, 0))
  }

  // ----- the items of a variadic operator -----

  /** The items are the operands, or those of the only operand. */
  ghost predicate Taken(len: VariadicLen, args: seq<Value>, before: seq<seq<Value>>, items: seq<Value>) {
    if len.Fixed? then items == args && len.count == |args|
    else |args| == 1 && args[0].List? && args[0].id < |before| && items == before[args[0].id]
  }

  /** The items of several lists, one list after the other. */
  function Joined(lists: seq<seq<Value>>, items: seq<Value>): seq<Value>
    decreases |items|
  {
    if items == [] then []
    else
      var last := items[|items| - 1];
      Joined(lists, items[..|items| - 1]) + ItemsOf(lists, last)
  }

  function ItemsOf(lists: seq<seq<Value>>, v: Value): seq<Value> {
    if v.List? && v.id < |lists| then lists[v.id] else []
  }

  function Sum(xs: seq<real>): real {
    if xs == [] then 0.0 else Sum(xs[..|xs| - 1]) + xs[|xs| - 1]
  }

  function Product(xs: seq<real>): real {
    if xs == [] then 1.0 else Product(xs[..|xs| - 1]) * xs[|xs| - 1]
  }

  /** Combining items from left to right gives `v`. */
  ghost predicate Folds(w: World, op: BinaryOp, items: seq<Value>, before: seq<seq<Value>>, v: Value,
                        after: seq<seq<Value>>)
    decreases |items|
  {
    var n := |items| - 1;
    if n < 0 then false
    else if n == 0 then v == items[0] && after == before
    else
      exists v0, lists :: Folds(w, op, items[..n], before, v0, lists)
                          && BinaryOn(w, op, v0, items[n], lists) == Ok((v, after))
  }

  ghost predicate FoldFails(w: World, op: BinaryOp, items: seq<Value>, before: seq<seq<Value>>, err: Error) {
    exists k, v, lists :: 0 < k < |items| && Folds(w, op, items[..k], before, v, lists)
                          && BinaryOn(w, op, v, items[k], lists) == Err(err)
  }

  /** Going through the items from left to right, `v` is the one that is kept: a later item replaces the one before if
      it is preferred. */
  ghost predicate Picks(w: World, r: Relation, items: seq<Value>, lists: seq<seq<Value>>, v: Value)
    decreases |items|
  {
    var n := |items| - 1;
    if n < 0 then false
    else if n == 0 then v == items[0]
    else
      exists v0 :: Picks(w, r, items[..n], lists, v0)
                   && (|| (Relates(w, lists, r, items[n], v0) == Ok(true) && v == items[n])
                       || (Relates(w, lists, r, items[n], v0) == Ok(false) && v == v0))
  }

  ghost predicate PickFails(w: World, r: Relation, items: seq<Value>, lists: seq<seq<Value>>, err: Error) {
    exists k, v :: 0 < k < |items| && Picks(w, r, items[..k], lists, v)
                   && Relates(w, lists, r, items[k], v) == Err(err)
  }

  /** What adding up, or multiplying, items gives. */
  ghost predicate Totals(w: World, sum: bool, items: seq<Value>, before: seq<seq<Value>>, v: Value,
                         after: seq<seq<Value>>) {
    && (forall xs :: AreNumbers(w, items, xs) ==> v == Num(if sum then Sum(xs) else Product(xs)) && after == before)
    && (|items| == 0 ==> v == Num(if sum then 0.0 else 1.0) && after == before)
    && (|items| == 1 ==> UnaryOn(w, ToNumber, items[0], before) == Ok((v, after)))
    && (|items| > 1 ==> Folds(w, if sum then Add else Mul, items, before, v, after))
  }

  /** What the least, or the greatest, of the items is. */
  ghost predicate Best(w: World, least: bool, items: seq<Value>, before: seq<seq<Value>>, v: Value) {
    && Picks(w, if least then Less else Greater, items, before, v)
    && ((forall x :: x in items ==> x.Num?) ==>
          && v in items && v.Num?
          && forall x :: x in items && x.Num? ==> if least then v.n <= x.n else v.n >= x.n)
  }

  ghost predicate MeansVariadic(w: World, op: VariadicOp, items: seq<Value>, before: seq<seq<Value>>, vs: seq<Value>,
                                after: seq<seq<Value>>) {
    || (op.MakeList? && Gains(before, after, vs) && after[|before|] == items)
    || (op.ListCat? && (forall x :: x in items ==> x.List?) && Gains(before, after, vs)
        && after[|before|] == Joined(before, items))
    || ((op.AddAll? || op.MulAll?) && |vs| == 1 && Totals(w, op.AddAll?, items, before, vs[0], after))
    || ((op.MinOf? || op.MaxOf?) && |vs| == 1 && Best(w, op.MinOf?, items, before, vs[0]) && after == before)
  }

  ghost predicate RefusesVariadic(w: World, op: VariadicOp, items: seq<Value>, before: seq<seq<Value>>, err: Error) {
    || (op.ListCat?
        && exists k :: 0 <= k < |items| && NoList(items[k], err) && forall j :: 0 <= j < k ==> items[j].List?)
    || ((op.AddAll? || op.MulAll?) && |items| == 1 && UnaryOn(w, ToNumber, items[0], before) == Err(err))
    || ((op.AddAll? || op.MulAll?) && FoldFails(w, if op.AddAll? then Add else Mul, items, before, err))
    || ((op.MinOf? || op.MaxOf?) && items == [] && err == EmptyList)
    || ((op.MinOf? || op.MaxOf?) && PickFails(w, if op.MinOf? then Less else Greater, items, before, err))
  }

  // ----- all instructions on operands -----

  /** How many operands an instruction takes. */
  ghost predicate Takes(ins: Instruction, n: nat) {
    || (n == 0 && (ins.PushBool? || ins.PushInt? || ins.PushNumber? || ins.PushString?))
    || (n == 1 && (ins.PopValue? || ins.ToBool? || ins.ToNum? || ins.Throw? || ins.Unary?))
    || (n == 1 && (ins.ListCdr? || ins.ListRev? || ins.ListIsEmpty? || ins.ListLength? || ins.ListGetLast?
                   || ins.ListRemoveLast? || ins.ListRemoveAll?))
    || (n == 2 && (ins.Binary? || ins.Cmp? || ins.Identical? || ins.ListCons? || ins.ListInsertLast?
                   || ins.ListAssignLast?))
    || (ins.Variadic? && !ins.vop.StrCat? && n == if ins.len.Fixed? then ins.len.count else 1)
  }

  /** A value that is put on the stack, the lists being left alone. */
  ghost predicate MeansValue(w: World, ins: Instruction, args: seq<Value>, before: seq<seq<Value>>, v: Value) {
    || (ins.PushBool? && args == [] && v == Bool(ins.flag))
    || (ins.PushInt? && args == [] && v == Num(ins.int32 as real))
    || (ins.PushNumber? && args == [] && v.Num? && w.number(ins.bits) == Some(v.n))
    || (ins.PushString? && args == [] && v == Txt(ins.text))
    || (ins.ToBool? && |args| == 1 && v == args[0] && v.Bool?)
    || (ins.ToNum? && |args| == 1 && v.Num? && IsNumber(w, args[0], v.n))
    || (ins.Cmp? && |args| == 2 && v.Bool? && Relates(w, before, ins.relation, args[0], args[1]) == Ok(v.b)
        && (args[0].Num? && args[1].Num? ==> v.b == Holds(ins.relation, args[0].n, args[1].n)))
    || (ins.Identical? && |args| == 2 && v == Bool(args[0] == args[1]))
  }

  /** What an instruction makes of its operands. */
  ghost predicate Means(w: World, ins: Instruction, args: seq<Value>, before: seq<seq<Value>>, vs: seq<Value>,
                        after: seq<seq<Value>>) {
    || (|vs| == 1 && after == before && MeansValue(w, ins, args, before, vs[0]))
    || (ins.PopValue? && |args| == 1 && vs == [] && after == before)
    || (ins.Binary? && |args| == 2 && |vs| == 1 && BinaryOn(w, ins.bop, args[0], args[1], before) == Ok((vs[0], after)))
    || (ins.Unary? && |args| == 1 && |vs| == 1 && UnaryOn(w, ins.uop, args[0], before) == Ok((vs[0], after)))
    || MeansOnList(ins, args, before, vs, after)
    || (ins.Variadic? && exists items :: Taken(ins.len, args, before, items)
                                         && MeansVariadic(w, ins.vop, items, before, vs, after))
  }

  /** A text as an error or a name: a number stands for the way it is shown. */
  ghost predicate IsText(w: World, v: Value, t: Str) {
    v == Txt(t) || (v.Num? && w.show(v.n) == t)
  }

  ghost predicate NoText(v: Value, err: Error) {
    !v.Txt? && !v.Num? && err.Conversion? && HasKind(v, err.got) && err.expected == TxtT
  }

  /** Why an instruction refuses its operands. */
  ghost predicate Refuses(w: World, ins: Instruction, args: seq<Value>, before: seq<seq<Value>>, err: Error) {
    || (ins.PushNumber? && w.number(ins.bits).None? && err == BadNumber)
    || (ins.ToBool? && |args| == 1 && NoBool(args[0], err))
    || (ins.ToNum? && |args| == 1 && NoNumber(w, args[0], err))
    || (ins.Cmp? && |args| == 2 && Relates(w, before, ins.relation, args[0], args[1]) == Err(err))
    || (ins.Binary? && |args| == 2 && BinaryOn(w, ins.bop, args[0], args[1], before) == Err(err))
    || (ins.Unary? && |args| == 1 && UnaryOn(w, ins.uop, args[0], before) == Err(err))
    || (ins.Throw? && |args| == 1 && ((err.Custom? && IsText(w, args[0], err.msg)) || NoText(args[0], err)))
    || ((ListLast(ins) || ins.ListAssignLast?) && RefusesOnList(ins, args, before, err))
    || (ins.Variadic? && ins.len.Dynamic? && |args| == 1 && NoList(args[0], err))
    || (ins.Variadic? && exists items :: Taken(ins.len, args, before, items)
                                         && RefusesVariadic(w, ins.vop, items, before, err))
  }

  /** Every list that is named exists. */
  ghost predicate Existing(vs: seq<Value>, lists: seq<seq<Value>>) {
    forall v :: v in vs && v.List? ==> v.id < |lists|
  }

  ghost predicate AllExisting(args: seq<Value>, lists: seq<seq<Value>>) {
    Existing(args, lists) && forall l :: l in lists ==> Existing(l, lists)
  }

  /** An operation either succeeds as it is meant, or has a reason to fail. The cells of variables stay as they are. */
  ghost predicate Explained(w: World, ins: Instruction, args: seq<Value>, heap: Heap,
                            r: Result<(seq<Value>, Heap), Error>) {
    || (r.Ok? && r.value.1.cells == heap.cells && Means(w, ins, args, heap.lists, r.value.0, r.value.1.lists))
    || (r.Err? && Refuses(w, ins, args, heap.lists, r.error))
  }

  // ----- the operations -----

  lemma ValuePrim(w: World, ins: Instruction, args: seq<Value>, heap: Heap)
    requires Takes(ins, |args|)
    requires ins.PushBool? || ins.PushInt? || ins.PushNumber? || ins.PushString? || ins.ToBool? || ins.ToNum?
             || ins.PopValue? || ins.Throw?
    ensures Explained(w, ins, args, heap, Prim(w, ins, args, heap))
  {
    hide BinaryOn, UnaryOn, Relates, Combine, OnList, AssignLast, MeansOnList, MeansVariadic;
  }

  lemma OperatorPrim(w: World, ins: Instruction, args: seq<Value>, heap: Heap)
    requires Takes(ins, |args|) && (ins.Cmp? || ins.Identical? || ins.Binary? || ins.Unary?)
    ensures Explained(w, ins, args, heap, Prim(w, ins, args, heap))
  {
    hide BinaryOn, UnaryOn, Relates, Combine, OnList, AssignLast, MeansOnList, MeansVariadic, Holds;
    if ins.Cmp? && args[0].Num? && args[1].Num? {
      NumbersRelate(w, heap.lists, ins.relation, args[0].n, args[1].n);
    }
  }

  /** What `OnList` does, by the kind of its instruction. */
  lemma ListPrim(w: World, ins: Instruction, args: seq<Value>, heap: Heap)
    requires Takes(ins, |args|) && ListLast(ins) && Existing(args, heap.lists)
    ensures Explained(w, ins, args, heap, Prim(w, ins, args, heap))
  {
    hide MeansVariadic, RefusesVariadic, Combine, BinaryOn, UnaryOn, Relates, AssignLast, MeansOnList, OnList, AsList;
    hide RefusesOnList;
    var l := args[|args| - 1];
    assert l in args;
    var r := OnList(ins, args, heap);
    OnListMeans(ins, args, heap);
    assert Prim(w, ins, args, heap) == r;
  }

  lemma OnListMeans(ins: Instruction, args: seq<Value>, heap: Heap)
    requires |args| == (if ins.ListCons? || ins.ListInsertLast? then 2 else 1) && ListLast(ins)
    requires var l := args[|args| - 1]; l.List? ==> l.id < |heap.lists|
    ensures match OnList(ins, args, heap)
            case Ok(o) => o.1.cells == heap.cells && MeansOnList(ins, args, heap.lists, o.0, o.1.lists)
            case Err(e) => RefusesOnList(ins, args, heap.lists, e)
  {
    hide MeansOnList, OnList;
    if args[|args| - 1].List? {
      if ins.ListCons? || ins.ListCdr? || ins.ListRev? {
        NewListMeans(ins, args, heap);
      } else if ins.ListInsertLast? || ins.ListRemoveLast? || ins.ListRemoveAll? {
        ChangedListMeans(ins, args, heap);
      } else {
        ReadMeans(ins, args, heap);
      }
    } else {
      NoListMeans(ins, args, heap);
    }
  }

  lemma NoListMeans(ins: Instruction, args: seq<Value>, heap: Heap)
    requires |args| == (if ins.ListCons? || ins.ListInsertLast? then 2 else 1) && ListLast(ins)
    requires !args[|args| - 1].List?
    ensures var r := OnList(ins, args, heap); r.Err? && RefusesOnList(ins, args, heap.lists, r.error)
  {
  }

  /** The list an instruction works on. */
  ghost predicate WorksOn(ins: Instruction, args: seq<Value>, heap: Heap) {
    && |args| == (if ins.ListCons? || ins.ListInsertLast? then 2 else 1)
    && args[|args| - 1].List? && args[|args| - 1].id < |heap.lists|
  }

  lemma NewListMeans(ins: Instruction, args: seq<Value>, heap: Heap)
    requires (ins.ListCons? || ins.ListCdr? || ins.ListRev?) && WorksOn(ins, args, heap)
    ensures match OnList(ins, args, heap)
            case Ok(o) => o.1.cells == heap.cells && MeansOnList(ins, args, heap.lists, o.0, o.1.lists)
            case Err(e) => RefusesOnList(ins, args, heap.lists, e)
  {
  }

  lemma ChangedListMeans(ins: Instruction, args: seq<Value>, heap: Heap)
    requires (ins.ListInsertLast? || ins.ListRemoveLast? || ins.ListRemoveAll?) && WorksOn(ins, args, heap)
    ensures match OnList(ins, args, heap)
            case Ok(o) => o.1.cells == heap.cells && MeansOnList(ins, args, heap.lists, o.0, o.1.lists)
            case Err(e) => RefusesOnList(ins, args, heap.lists, e)
  {
  }

  lemma ReadMeans(ins: Instruction, args: seq<Value>, heap: Heap)
    requires (ins.ListIsEmpty? || ins.ListLength? || ins.ListGetLast?) && WorksOn(ins, args, heap)
    ensures match OnList(ins, args, heap)
            case Ok(o) => o.1.cells == heap.cells && MeansOnList(ins, args, heap.lists, o.0, o.1.lists)
            case Err(e) => RefusesOnList(ins, args, heap.lists, e)
  {
  }

  lemma AssignLastPrim(w: World, ins: Instruction, args: seq<Value>, heap: Heap)
    requires Takes(ins, |args|) && ins.ListAssignLast? && Existing(args, heap.lists)
    ensures Explained(w, ins, args, heap, Prim(w, ins, args, heap))
  {
    hide MeansVariadic, RefusesVariadic, Combine, BinaryOn, UnaryOn, Relates, OnList, NewItems, ChangedItems, ReadOff;
    assert args[0] in args;
  }

  // ----- variadic operators -----

  lemma JoinedLast(lists: seq<seq<Value>>, front: seq<Value>, v: Value)
    ensures Joined(lists, front + [v]) == Joined(lists, front) + ItemsOf(lists, v)
  {
    var all := front + [v];
    assert all[..|all| - 1] == front;
  }

  lemma {:induction false} JoinedFirst(lists: seq<seq<Value>>, x: Value, items: seq<Value>)
    ensures Joined(lists, [x] + items) == Joined(lists, [x]) + Joined(lists, items)
    decreases |items|
  {
    hide Joined, ItemsOf;
    if items == [] {
      assert [x] + items == [x];
      JoinedNone(lists);
    } else {
      var front, v := items[..|items| - 1], items[|items| - 1];
      assert items == front + [v] && [x] + items == ([x] + front) + [v];
      JoinedFirst(lists, x, front);
      JoinedLast(lists, [x] + front, v);
      JoinedLast(lists, front, v);
    }
  }

  lemma {:induction false} ConcatIsJoined(lists: seq<seq<Value>>, items: seq<Value>)
    requires Existing(items, lists)
    ensures var r := ConcatLists(lists, items);
            && (r.Ok? ==> (forall x :: x in items ==> x.List?) && r.value == Joined(lists, items))
            && (r.Err? ==> exists k :: 0 <= k < |items| && NoList(items[k], r.error)
                                       && forall j :: 0 <= j < k ==> items[j].List?)
    decreases |items|
  {
    hide Joined;
    if items == [] {
      assert Joined(lists, []) == [] by { JoinedNone(lists); }
    } else {
      var x, rest := items[0], items[1..];
      assert x in items && items == [x] + rest;
      if x.List? {
        ConcatIsJoined(lists, rest);
        JoinedFirst(lists, x, rest);
        JoinedOne(lists, x);
        var r := ConcatLists(lists, rest);
        if r.Err? {
          var k :| 0 <= k < |rest| && NoList(rest[k], r.error) && forall j :: 0 <= j < k ==> rest[j].List?;
          assert items[k + 1] == rest[k];
          forall j | 0 <= j < k + 1 ensures items[j].List? {
            assert j > 0 ==> items[j] == rest[j - 1];
          }
        }
      } else {
        assert NoList(items[0], AsList(x).error);
      }
    }
  }

  lemma JoinedNone(lists: seq<seq<Value>>)
    ensures Joined(lists, []) == []
  {
  }

  lemma JoinedOne(lists: seq<seq<Value>>, x: Value)
    requires x.List? && x.id < |lists|
    ensures Joined(lists, [x]) == lists[x.id]
  {
    assert [x][..0] == [];
    JoinedNone(lists);
  }

  lemma FoldsMore(w: World, op: BinaryOp, items: seq<Value>, before: seq<seq<Value>>, v0: Value, lists: seq<seq<Value>>,
                  x: Value)
    requires Folds(w, op, items, before, v0, lists) && BinaryOn(w, op, v0, x, lists).Ok?
    ensures var r := BinaryOn(w, op, v0, x, lists).value; Folds(w, op, items + [x], before, r.0, r.1)
  {
    hide BinaryOn;
    var all := items + [x];
    assert all[..|all| - 1] == items && |items| > 0 && all[|all| - 1] == x;
    assert Folds(w, op, all[..|all| - 1], before, v0, lists);
  }

  lemma FoldsStop(w: World, op: BinaryOp, items: seq<Value>, before: seq<seq<Value>>, v0: Value, lists: seq<seq<Value>>,
                  all: seq<Value>)
    requires Folds(w, op, items, before, v0, lists) && items < all && BinaryOn(w, op, v0, all[|items|], lists).Err?
    ensures FoldFails(w, op, all, before, BinaryOn(w, op, v0, all[|items|], lists).error)
  {
    hide BinaryOn;
    assert all[..|items|] == items && |items| > 0;
    assert Folds(w, op, all[..|items|], before, v0, lists);
  }

  lemma {:induction false} FoldIsFold(w: World, op: BinaryOp, done: seq<Value>, before: seq<seq<Value>>, acc: Value,
                                      items: seq<Value>, heap: Heap)
    requires Folds(w, op, done, before, acc, heap.lists)
    ensures match FoldBinary(w, op, acc, items, heap)
            case Ok(o) => |o.0| == 1 && o.1.cells == heap.cells
                          && Folds(w, op, done + items, before, o.0[0], o.1.lists)
            case Err(e) => FoldFails(w, op, done + items, before, e)
    decreases |items|
  {
    hide BinaryOn, Folds, FoldFails;
    if items == [] {
      assert done + items == done;
    } else {
      assert done + [items[0]] + items[1..] == done + items && (done + items)[|done|] == items[0];
      var r := BinaryOn(w, op, acc, items[0], heap.lists);
      if r.Err? {
        FoldsStop(w, op, done, before, acc, heap.lists, done + items);
      } else {
        FoldsMore(w, op, done, before, acc, heap.lists, items[0]);
        FoldIsFold(w, op, done + [items[0]], before, r.value.0, items[1..], heap.(lists := r.value.1));
      }
    }
  }

  /** Numbers add up, or multiply, to their sum or product. */
  lemma {:induction false} FoldsNumbers(w: World, sum: bool, items: seq<Value>, xs: seq<real>, before: seq<seq<Value>>,
                                        v: Value, after: seq<seq<Value>>)
    requires AreNumbers(w, items, xs) && Folds(w, if sum then Add else Mul, items, before, v, after)
    ensures after == before && IsNumber(w, v, if sum then Sum(xs) else Product(xs)) && (|items| > 1 ==> v.Num?)
    decreases |items|
  {
    hide BinaryOn;
    var op, n := if sum then Add else Mul, |items| - 1;
    if n == 0 {
      assert xs[..0] == [];
    } else {
      var v0, lists :| Folds(w, op, items[..n], before, v0, lists)
                       && BinaryOn(w, op, v0, items[n], lists) == Ok((v, after));
      FoldsNumbers(w, sum, items[..n], xs[..n], before, v0, lists);
      assert IsNumber(w, items[n], xs[n]);
      NumbersArithmetic(w, v0, items[n], if sum then Sum(xs[..n]) else Product(xs[..n]), xs[n], lists);
    }
  }

  lemma PicksMore(w: World, r: Relation, items: seq<Value>, lists: seq<seq<Value>>, v: Value, x: Value)
    requires Picks(w, r, items, lists, v) && Relates(w, lists, r, x, v).Ok?
    ensures Picks(w, r, items + [x], lists, if Relates(w, lists, r, x, v).value then x else v)
  {
    hide Relates;
    var all := items + [x];
    assert all[..|all| - 1] == items && |items| > 0 && all[|all| - 1] == x;
    assert Picks(w, r, all[..|all| - 1], lists, v);
  }

  lemma PicksStop(w: World, r: Relation, items: seq<Value>, lists: seq<seq<Value>>, v: Value, all: seq<Value>)
    requires Picks(w, r, items, lists, v) && items < all && Relates(w, lists, r, all[|items|], v).Err?
    ensures PickFails(w, r, all, lists, Relates(w, lists, r, all[|items|], v).error)
  {
    hide Relates;
    assert all[..|items|] == items && |items| > 0;
    assert Picks(w, r, all[..|items|], lists, v);
  }

  lemma {:induction false} ExtremeIsPick(w: World, r: Relation, done: seq<Value>, best: Value, items: seq<Value>,
                                         heap: Heap)
    requires Picks(w, r, done, heap.lists, best)
    ensures match Extreme(w, r, best, items, heap)
            case Ok(o) => |o.0| == 1 && o.1 == heap && Picks(w, r, done + items, heap.lists, o.0[0])
            case Err(e) => PickFails(w, r, done + items, heap.lists, e)
    decreases |items|
  {
    hide Relates, Picks, PickFails;
    if items == [] {
      assert done + items == done;
    } else {
      assert done + [items[0]] + items[1..] == done + items && (done + items)[|done|] == items[0];
      var o := Relates(w, heap.lists, r, items[0], best);
      if o.Err? {
        PicksStop(w, r, done, heap.lists, best, done + items);
      } else {
        PicksMore(w, r, done, heap.lists, best, items[0]);
        ExtremeIsPick(w, r, done + [items[0]], if o.value then items[0] else best, items[1..], heap);
      }
    }
  }

  /** Of numbers, the least or the greatest is kept. */
  lemma {:induction false} PicksBest(w: World, least: bool, items: seq<Value>, lists: seq<seq<Value>>, v: Value)
    requires Picks(w, if least then Less else Greater, items, lists, v) && forall x :: x in items ==> x.Num?
    ensures v in items && v.Num? && forall x :: x in items && x.Num? ==> if least then v.n <= x.n else v.n >= x.n
    decreases |items|
  {
    hide Relates;
    var r, n := if least then Less else Greater, |items| - 1;
    if n > 0 {
      var v0 :| Picks(w, r, items[..n], lists, v0)
                && (|| (Relates(w, lists, r, items[n], v0) == Ok(true) && v == items[n])
                    || (Relates(w, lists, r, items[n], v0) == Ok(false) && v == v0));
      PicksBest(w, least, items[..n], lists, v0);
      assert items[n] in items;
      NumbersRelate(w, lists, r, items[n].n, v0.n);
      forall x | x in items && x.Num? ensures if least then v.n <= x.n else v.n >= x.n {
        assert x == items[n] || x in items[..n];
      }
    }
  }

  lemma NumbersFold(w: World, sum: bool, items: seq<Value>, xs: seq<real>, before: seq<seq<Value>>, err: Error)
    requires AreNumbers(w, items, xs)
    ensures !FoldFails(w, if sum then Add else Mul, items, before, err)
  {
    hide BinaryOn, Folds, Sum, Product;
    var op := if sum then Add else Mul;
    if FoldFails(w, op, items, before, err) {
      var k, v, lists :| 0 < k < |items| && Folds(w, op, items[..k], before, v, lists)
                         && BinaryOn(w, op, v, items[k], lists) == Err(err);
      FoldsNumbers(w, sum, items[..k], xs[..k], before, v, lists);
      assert IsNumber(w, items[k], xs[k]);
      NumbersArithmetic(w, v, items[k], if sum then Sum(xs[..k]) else Product(xs[..k]), xs[k], lists);
    }
  }

  ghost predicate Combined(w: World, op: VariadicOp, items: seq<Value>, heap: Heap,
                           r: Result<(seq<Value>, Heap), Error>) {
    || (r.Ok? && r.value.1.cells == heap.cells
        && MeansVariadic(w, op, items, heap.lists, r.value.0, r.value.1.lists))
    || (r.Err? && RefusesVariadic(w, op, items, heap.lists, r.error))
  }

  lemma TotalOf(w: World, sum: bool, items: seq<Value>, heap: Heap)
    ensures var op := if sum then AddAll else MulAll; Combined(w, op, items, heap, Combine(w, op, items, heap))
  {
    hide BinaryOn, UnaryOn, ConcatLists, Extreme, Folds, FoldFails, FoldBinary, Picks, PickFails, Sum, Product;
    hide IsNumber, AreNumbers, Best, Gains, Joined;
    var op := if sum then AddAll else MulAll;
    if |items| > 1 {
      assert [items[0]] + items[1..] == items;
      OneFolds(w, if sum then Add else Mul, items[0], heap.lists);
      FoldIsFold(w, if sum then Add else Mul, [items[0]], heap.lists, items[0], items[1..], heap);
    }
    var r := Combine(w, op, items, heap);
    assert op.AddAll? == sum;
    if r.Err? {
      assert RefusesVariadic(w, op, items, heap.lists, r.error);
    } else {
      assert |r.value.0| == 1 && r.value.1.cells == heap.cells;
      assert |items| > 1 ==> Folds(w, if sum then Add else Mul, items, heap.lists, r.value.0[0], r.value.1.lists);
      forall xs | AreNumbers(w, items, xs)
        ensures r.value.0[0] == Num(if sum then Sum(xs) else Product(xs)) && r.value.1.lists == heap.lists
      {
        TotalOfNumbers(w, sum, items, xs, heap);
      }
      assert Totals(w, sum, items, heap.lists, r.value.0[0], r.value.1.lists);
      assert MeansVariadic(w, op, items, heap.lists, r.value.0, r.value.1.lists);
    }
    assert Combined(w, op, items, heap, r);
  }

  lemma OneFolds(w: World, op: BinaryOp, v: Value, lists: seq<seq<Value>>)
    ensures Folds(w, op, [v], lists, v, lists)
  {
  }

  lemma TotalOfNumbers(w: World, sum: bool, items: seq<Value>, xs: seq<real>, heap: Heap)
    requires AreNumbers(w, items, xs)
    ensures Combine(w, if sum then AddAll else MulAll, items, heap)
            == Ok(([Num(if sum then Sum(xs) else Product(xs))], heap))
  {
    hide BinaryOn, UnaryOn, ConcatLists, Extreme, FoldBinary, FoldFails;
    var op := if sum then Add else Mul;
    if |items| == 1 {
      assert xs[..0] == [];
      NumberSigns(w, items[0], xs[0], heap.lists);
    } else if |items| > 1 {
      assert [items[0]] + items[1..] == items;
      FoldIsFold(w, op, [items[0]], heap.lists, items[0], items[1..], heap);
      var r := FoldBinary(w, op, items[0], items[1..], heap);
      if r.Err? {
        NumbersFold(w, sum, items, xs, heap.lists, r.error);
      }
      FoldsNumbers(w, sum, items, xs, heap.lists, r.value.0[0], r.value.1.lists);
      assert r.value.0 == [Num(if sum then Sum(xs) else Product(xs))] && r.value.1 == heap;
    }
  }

  lemma BestOf(w: World, least: bool, items: seq<Value>, heap: Heap)
    ensures var op := if least then MinOf else MaxOf; Combined(w, op, items, heap, Combine(w, op, items, heap))
  {
    hide BinaryOn, UnaryOn, ConcatLists, Extreme, Picks, PickFails, FoldBinary, FoldFails, Totals, Gains, Joined;
    hide Relates;
    var op, rel := if least then MinOf else MaxOf, if least then Less else Greater;
    if items != [] {
      assert [items[0]] + items[1..] == items;
      OnePick(w, rel, items[0], heap.lists);
      ExtremeIsPick(w, rel, [items[0]], items[0], items[1..], heap);
      var r := Combine(w, op, items, heap);
      assert r == Extreme(w, rel, items[0], items[1..], heap);
      if r.Ok? && forall x :: x in items ==> x.Num? {
        PicksBest(w, least, items, heap.lists, r.value.0[0]);
      }
    }
  }

  lemma OnePick(w: World, r: Relation, v: Value, lists: seq<seq<Value>>)
    ensures Picks(w, r, [v], lists, v)
  {
  }

  lemma ListsOf(w: World, op: VariadicOp, items: seq<Value>, heap: Heap)
    requires (op.MakeList? || op.ListCat?) && Existing(items, heap.lists)
    ensures Combined(w, op, items, heap, Combine(w, op, items, heap))
  {
    hide BinaryOn, UnaryOn, ConcatLists, Extreme, FoldBinary, FoldFails, PickFails, Totals, Best, Joined;
    if op.ListCat? {
      ConcatIsJoined(heap.lists, items);
    }
  }

  lemma VariadicPrim(w: World, ins: Instruction, args: seq<Value>, heap: Heap)
    requires Takes(ins, |args|) && ins.Variadic? && AllExisting(args, heap.lists)
    ensures Explained(w, ins, args, heap, Prim(w, ins, args, heap))
  {
    hide BinaryOn, UnaryOn, Combine, Relates, OnList, AssignLast, MeansOnList, MeansVariadic, RefusesVariadic;
    if ins.len.Fixed? {
      assert Taken(ins.len, args, heap.lists, args);
      CombineMeans(w, ins.vop, args, heap);
    } else if args[0].List? {
      assert args[0] in args;
      var items := heap.lists[args[0].id];
      assert Taken(ins.len, args, heap.lists, items);
      CombineMeans(w, ins.vop, items, heap);
    }
  }

  lemma CombineMeans(w: World, op: VariadicOp, items: seq<Value>, heap: Heap)
    requires !op.StrCat? && Existing(items, heap.lists)
    ensures Combined(w, op, items, heap, Combine(w, op, items, heap))
  {
    hide Combine, Combined, Existing;
    if op.AddAll? || op.MulAll? {
      TotalOf(w, op.AddAll?, items, heap);
    } else if op.MinOf? || op.MaxOf? {
      BestOf(w, op.MinOf?, items, heap);
    } else {
      ListsOf(w, op, items, heap);
    }
  }

  /** Every instruction on operands does with them what it is meant to do, or has a reason to refuse. */
  lemma PrimExplained(w: World, ins: Instruction, args: seq<Value>, heap: Heap)
    requires Takes(ins, |args|) && AllExisting(args, heap.lists)
    ensures Explained(w, ins, args, heap, Prim(w, ins, args, heap)) && Arity(ins) == Some(|args|)
  {
    hide Prim, Explained, BinaryOn, UnaryOn, Combine, Relates;
    if ListLast(ins) {
      ListPrim(w, ins, args, heap);
    } else if ins.ListAssignLast? {
      AssignLastPrim(w, ins, args, heap);
    } else if ins.Variadic? {
      VariadicPrim(w, ins, args, heap);
    } else if ins.Cmp? || ins.Identical? || ins.Binary? || ins.Unary? {
      OperatorPrim(w, ins, args, heap);
    } else {
      ValuePrim(w, ins, args, heap);
    }
  }

  // ----- a step -----

  /** The process is about to execute an instruction. */
  ghost predicate Ready(m: Machine, s: State, ins: Instruction, aft: nat) {
    s.calls != [] && Fetch(m.program, s.pos) == Some((ins, aft))
  }

  /** The process goes on at `aft`: the stack and the lists are these, and all else is as before. */
  ghost predicate GoesOn(s: State, o: Outcome, aft: nat, values: seq<Value>, lists: seq<seq<Value>>) {
    o == Went(State(aft, s.warp, s.calls, values, s.handlers, Heap(s.heap.cells, lists), s.closures, s.turns))
  }

  /** The instruction fails with its operands gone. */
  ghost predicate Breaks(s: State, o: Outcome, values: seq<Value>, err: Error) {
    o == Failed(err, State(s.pos, s.warp, s.calls, values, s.handlers, s.heap, s.closures, s.turns))
  }

  /** A step at an instruction on operands: it leaves what it is meant to leave in place of its operands, and changes
      the lists as it is meant to and nothing else; or it fails, for a reason. */
  lemma OperandStep(m: Machine, s: State, ins: Instruction, aft: nat, rest: seq<Value>, args: seq<Value>)
    requires Ready(m, s, ins, aft) && s.values == rest + args && Takes(ins, |args|) && AllExisting(args, s.heap.lists)
    ensures var o := StepImpl(m, s);
            || (exists vs, lists :: Means(m.w, ins, args, s.heap.lists, vs, lists)
                                    && GoesOn(s, o, aft, rest + vs, lists))
            || (exists err :: Refuses(m.w, ins, args, s.heap.lists, err) && Breaks(s, o, rest, err))
  {
    hide Prim, Means, Refuses, Fetch, AllExisting;
    PrimExplained(m.w, ins, args, s.heap);
    StackStep(m, s, ins, aft, rest, args);
    var r := Prim(m.w, ins, args, s.heap);
    var o := StepImpl(m, s);
    if r.Ok? {
      assert Means(m.w, ins, args, s.heap.lists, r.value.0, r.value.1.lists)
             && GoesOn(s, o, aft, rest + r.value.0, r.value.1.lists);
    } else {
      assert Refuses(m.w, ins, args, s.heap.lists, r.error) && Breaks(s, o, rest, r.error);
    }
  }

  lemma StackStep(m: Machine, s: State, ins: Instruction, aft: nat, rest: seq<Value>, args: seq<Value>)
    requires Ready(m, s, ins, aft) && s.values == rest + args && Arity(ins) == Some(|args|)
    ensures var r := Prim(m.w, ins, args, s.heap);
            StepImpl(m, s) == if r.Ok? then Went(s.(pos := aft, values := rest + r.value.0, heap := r.value.1))
                              else Failed(r.error, s.(values := rest))
  {
    hide Prim, Fetch;
    var n := |rest|;
    assert s.values[..n] == rest && s.values[n..] == args;
  }
}
