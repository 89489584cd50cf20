/** What the operators compute, with the arithmetic written out: on numbers, on texts that spell numbers, and at the
    leaves of lists. */
module Operators {
  import opened Common
  import opened Bytecode
  import opened Values
  import opened Elementwise
  import opened ElementwiseProofs
  import L = Lists

  // ----- numbers and truth values -----

  /** A value that counts as a number: a number, or a text that spells one. */
  ghost predicate IsNumber(w: World, v: Value, x: real) {
    v == Num(x) || (v.Txt? && w.parse(v.s) == Some(x))
  }

  /** The kind that a conversion error names. */
  ghost predicate HasKind(v: Value, t: Type) {
    || (v.Num? && t == NumT) || (v.Bool? && t == BoolT) || (v.Txt? && t == TxtT) || (v.List? && t == ListT)
    || (v.Closure? && t == ClosureT)
  }

  /** A value that does not count as a number, and the error it gives. */
  ghost predicate NoNumber(w: World, v: Value, err: Error) {
    && !v.Num? && (v.Txt? ==> w.parse(v.s).None?)
    && err.Conversion? && HasKind(v, err.got) && err.expected == NumT
  }

  /** A value that is no truth value, and the error it gives. */
  ghost predicate NoBool(v: Value, err: Error) {
    !v.Bool? && err.Conversion? && HasKind(v, err.got) && err.expected == BoolT
  }

  /** Addition, subtraction and multiplication are those of numbers. */
  ghost predicate Arithmetic(w: World, a: Value, b: Value, add: Result<Scalar, Error>, sub: Result<Scalar, Error>,
                             mul: Result<Scalar, Error>) {
    && (forall x, y :: IsNumber(w, a, x) && IsNumber(w, b, y) ==>
          add == Ok(OfNum(x + y)) && sub == Ok(OfNum(x - y)) && mul == Ok(OfNum(x * y)))
    && (forall e :: NoNumber(w, a, e) ==> add == sub == mul == Err(e))
    && (forall x, e :: IsNumber(w, a, x) && NoNumber(w, b, e) ==> add == sub == mul == Err(e))
  }

  lemma ReadsAsNumber(w: World, v: Value)
    ensures forall x :: IsNumber(w, v, x) ==> AsNum(w, v) == Ok(x)
    ensures forall e :: NoNumber(w, v, e) ==> AsNum(w, v) == Err(e)
    ensures var r := AsNum(w, v);
            (r.Ok? && IsNumber(w, v, r.value)) || (r.Err? && NoNumber(w, v, r.error))
  {
  }

  lemma ScalarNumbers(w: World, a: Value, b: Value, x: real, y: real)
    requires AsNum(w, a) == Ok(x) && AsNum(w, b) == Ok(y)
    ensures Scalar2(w, Add, a, b) == Ok(OfNum(x + y))
    ensures Scalar2(w, Sub, a, b) == Ok(OfNum(x - y))
    ensures Scalar2(w, Mul, a, b) == Ok(OfNum(x * y))
  {
    hide AsNum;
  }

  lemma ScalarRefuses(w: World, op: BinaryOp, a: Value, b: Value, e: Error)
    requires op.Add? || op.Sub? || op.Mul?
    requires AsNum(w, a) == Err(e) || (AsNum(w, a).Ok? && AsNum(w, b) == Err(e))
    ensures Scalar2(w, op, a, b) == Err(e)
  {
    hide AsNum;
  }

  lemma AllRefuse(w: World, a: Value, b: Value, e: Error)
    requires AsNum(w, a) == Err(e) || (AsNum(w, a).Ok? && AsNum(w, b) == Err(e))
    ensures Scalar2(w, Add, a, b) == Scalar2(w, Sub, a, b) == Scalar2(w, Mul, a, b) == Err(e)
  {
    hide AsNum, Scalar2;
    ScalarRefuses(w, Add, a, b, e);
    ScalarRefuses(w, Sub, a, b, e);
    ScalarRefuses(w, Mul, a, b, e);
  }

  lemma ScalarArithmetic(w: World, a: Value, b: Value)
    ensures Arithmetic(w, a, b, Scalar2(w, Add, a, b), Scalar2(w, Sub, a, b), Scalar2(w, Mul, a, b))
  {
    hide AsNum, IsNumber, NoNumber, Scalar2;
    ReadsAsNumber(w, a);
    ReadsAsNumber(w, b);
    forall x, y | IsNumber(w, a, x) && IsNumber(w, b, y)
      ensures Scalar2(w, Add, a, b) == Ok(OfNum(x + y)) && Scalar2(w, Sub, a, b) == Ok(OfNum(x - y))
              && Scalar2(w, Mul, a, b) == Ok(OfNum(x * y))
    {
      ScalarNumbers(w, a, b, x, y);
    }
    forall e | NoNumber(w, a, e)
      ensures Scalar2(w, Add, a, b) == Scalar2(w, Sub, a, b) == Scalar2(w, Mul, a, b) == Err(e)
    {
      AllRefuse(w, a, b, e);
    }
    forall x, e | IsNumber(w, a, x) && NoNumber(w, b, e)
      ensures Scalar2(w, Add, a, b) == Scalar2(w, Sub, a, b) == Scalar2(w, Mul, a, b) == Err(e)
    {
      assert AsNum(w, a) == Ok(x);
      AllRefuse(w, a, b, e);
    }
  }

  lemma Counts(w: World, v: Value)
    ensures (exists x :: IsNumber(w, v, x)) || exists e :: NoNumber(w, v, e)
  {
    hide AsNum, IsNumber, NoNumber;
    ReadsAsNumber(w, v);
    var r := AsNum(w, v);
    if r.Ok? {
      assert IsNumber(w, v, r.value);
    } else {
      assert NoNumber(w, v, r.error);
    }
  }

  /** Negation, the absolute value and conversion are those of numbers, and "not" is that of truth values. */
  ghost predicate Signs(w: World, v: Value, number: Result<Scalar, Error>, neg: Result<Scalar, Error>,
                        abs: Result<Scalar, Error>, not: Result<Scalar, Error>) {
    && (forall x :: IsNumber(w, v, x) ==>
          && number == Ok(OfNum(x)) && neg == Ok(OfNum(-x))
          && exists y :: abs == Ok(OfNum(y)) && y >= 0.0 && (y == x || y == -x))
    && (forall e :: NoNumber(w, v, e) ==> number == neg == abs == Err(e))
    && (forall b :: v == Bool(b) ==> not == Ok(OfBool(!b)))
    && (forall e :: NoBool(v, e) ==> not == Err(e))
  }

  lemma SignsOfNumber(w: World, v: Value, x: real)
    requires AsNum(w, v) == Ok(x)
    ensures Scalar1(w, ToNumber, v) == Ok(OfNum(x)) && Scalar1(w, Neg, v) == Ok(OfNum(-x))
    ensures Scalar1(w, Abs, v) == Ok(OfNum(if x < 0.0 then -x else x))
  {
    hide AsNum;
  }

  lemma SignsRefuse(w: World, v: Value, e: Error)
    requires AsNum(w, v) == Err(e)
    ensures Scalar1(w, ToNumber, v) == Scalar1(w, Neg, v) == Scalar1(w, Abs, v) == Err(e)
  {
    hide AsNum;
  }

  lemma NotOf(w: World, v: Value)
    ensures forall b :: v == Bool(b) ==> Scalar1(w, Not, v) == Ok(OfBool(!b))
    ensures forall e :: NoBool(v, e) ==> Scalar1(w, Not, v) == Err(e)
  {
    hide AsNum;
  }

  lemma ScalarSigns(w: World, v: Value)
    ensures Signs(w, v, Scalar1(w, ToNumber, v), Scalar1(w, Neg, v), Scalar1(w, Abs, v), Scalar1(w, Not, v))
  {
    hide AsNum, IsNumber, NoNumber, NoBool, Scalar1;
    ReadsAsNumber(w, v);
    NotOf(w, v);
    forall x | IsNumber(w, v, x)
      ensures Scalar1(w, ToNumber, v) == Ok(OfNum(x)) && Scalar1(w, Neg, v) == Ok(OfNum(-x))
      ensures exists y :: Scalar1(w, Abs, v) == Ok(OfNum(y)) && y >= 0.0 && (y == x || y == -x)
    {
      SignsOfNumber(w, v, x);
      var y := if x < 0.0 then -x else x;
      assert Scalar1(w, Abs, v) == Ok(OfNum(y));
    }
    forall e | NoNumber(w, v, e)
      ensures Scalar1(w, ToNumber, v) == Scalar1(w, Neg, v) == Scalar1(w, Abs, v) == Err(e)
    {
      SignsRefuse(w, v, e);
    }
  }

  // ----- on values that are not lists -----

  lemma OnScalars(w: World, op: BinaryOp, a: Value, b: Value, lists: seq<seq<Value>>)
    requires !a.List? && !b.List?
    ensures BinaryOn(w, op, a, b, lists)
            == match Scalar2(w, op, a, b) case Ok(s) => Ok((FromScalar(s), lists)) case Err(e) => Err(e)
  {
    hide Scalar2;
    var e := Env(w, op, lists, a, b);
    var k := RootKey(e);
    var m := Memo(map[], []);
    assert Apply(e, k, m, Known(e)) == Apply(e, Key(k.x, k.y, false), m, Known(e));
    assert lists + [] == lists;
    assert Denote(e, k.x) == a && Denote(e, k.y) == b by {
      ClosuresDenote(e);
    }
  }

  lemma ClosuresDenote(e: Env)
    requires !e.a.List? && !e.b.List?
    ensures Denote(e, Identify(e.a, Arg(false))) == e.a && Denote(e, Identify(e.b, Arg(true))) == e.b
  {
  }

  /** On two numbers, or texts that spell numbers, the operators are those of arithmetic and leave the lists alone. */
  lemma NumbersArithmetic(w: World, a: Value, b: Value, x: real, y: real, lists: seq<seq<Value>>)
    requires IsNumber(w, a, x) && IsNumber(w, b, y)
    ensures BinaryOn(w, Add, a, b, lists) == Ok((Num(x + y), lists))
    ensures BinaryOn(w, Sub, a, b, lists) == Ok((Num(x - y), lists))
    ensures BinaryOn(w, Mul, a, b, lists) == Ok((Num(x * y), lists))
  {
    hide BinaryOn, Scalar2;
    ScalarArithmetic(w, a, b);
    OnScalars(w, Add, a, b, lists);
    OnScalars(w, Sub, a, b, lists);
    OnScalars(w, Mul, a, b, lists);
  }

  /** A value that is no list and no number makes the operators fail, the first operand first. */
  lemma NumbersRefuse(w: World, op: BinaryOp, a: Value, b: Value, err: Error, lists: seq<seq<Value>>)
    requires (op.Add? || op.Sub? || op.Mul?) && !a.List? && !b.List?
    requires NoNumber(w, a, err) || ((exists x :: IsNumber(w, a, x)) && NoNumber(w, b, err))
    ensures BinaryOn(w, op, a, b, lists) == Err(err)
  {
    hide BinaryOn, Scalar2;
    ScalarArithmetic(w, a, b);
    OnScalars(w, op, a, b, lists);
  }

  lemma UnaryOnScalar(w: World, op: UnaryOp, v: Value, lists: seq<seq<Value>>)
    requires !v.List?
    ensures UnaryOn(w, op, v, lists)
            == match Scalar1(w, op, v) case Ok(s) => Ok((FromScalar(s), lists)) case Err(e) => Err(e)
  {
    hide Scalar1;
    assert lists + [] == lists;
  }

  lemma NumberSigns(w: World, v: Value, x: real, lists: seq<seq<Value>>)
    requires IsNumber(w, v, x)
    ensures UnaryOn(w, ToNumber, v, lists) == Ok((Num(x), lists))
    ensures UnaryOn(w, Neg, v, lists) == Ok((Num(-x), lists))
    ensures UnaryOn(w, Abs, v, lists) == Ok((Num(if x < 0.0 then -x else x), lists))
  {
    hide UnaryOn, Scalar1;
    ScalarSigns(w, v);
    assert Scalar1(w, Neg, v) == Ok(OfNum(-x));
    UnaryOnScalar(w, ToNumber, v, lists);
    UnaryOnScalar(w, Neg, v, lists);
    UnaryOnScalar(w, Abs, v, lists);
    var y :| Scalar1(w, Abs, v) == Ok(OfNum(y)) && y >= 0.0 && (y == x || y == -x);
    assert y == if x < 0.0 then -x else x;
    assert UnaryOn(w, Abs, v, lists) == Ok((FromScalar(OfNum(y)), lists));
  }

  /** The value of a scalar that a host operator gives. */
  ghost predicate Stands(s: Scalar, v: Value) {
    || (s.OfNum? && v == Num(s.n)) || (s.OfBool? && v == Bool(s.b)) || (s.OfTxt? && v == Txt(s.s))
  }

  /** The other operators are asked for with their operands in order, and their results and errors are passed on. */
  lemma HostOperators(w: World, op: BinaryOp, uop: UnaryOp, a: Value, b: Value, lists: seq<seq<Value>>)
    requires !a.List? && !b.List? && !op.Add? && !op.Sub? && !op.Mul?
    requires !uop.Not? && !uop.ToNumber? && !uop.Abs? && !uop.Neg?
    ensures var r := w.scalar2(op, a, b);
            && (r.Err? ==> BinaryOn(w, op, a, b, lists) == Err(r.error))
            && (r.Ok? ==> exists v :: Stands(r.value, v) && BinaryOn(w, op, a, b, lists) == Ok((v, lists)))
    ensures var r := w.scalar1(uop, a);
            && (r.Err? ==> UnaryOn(w, uop, a, lists) == Err(r.error))
            && (r.Ok? ==> exists v :: Stands(r.value, v) && UnaryOn(w, uop, a, lists) == Ok((v, lists)))
  {
    hide BinaryOn, UnaryOn;
    OnScalars(w, op, a, b, lists);
    UnaryOnScalar(w, uop, a, lists);
    if w.scalar2(op, a, b).Ok? {
      assert Stands(w.scalar2(op, a, b).value, FromScalar(w.scalar2(op, a, b).value));
    }
    if w.scalar1(uop, a).Ok? {
      assert Stands(w.scalar1(uop, a).value, FromScalar(w.scalar1(uop, a).value));
    }
  }

  lemma NotFlips(w: World, b: bool, lists: seq<seq<Value>>)
    ensures UnaryOn(w, Not, Bool(b), lists) == Ok((Bool(!b), lists))
  {
    hide UnaryOn, Scalar1;
    ScalarSigns(w, Bool(b));
    UnaryOnScalar(w, Not, Bool(b), lists);
  }

  // ----- at the leaves of lists -----

  /** The operands of item `i` of the result list of a pair. */
  ghost predicate ItemOf(e: Env, k: Key, i: nat, a: Value, b: Value) {
    var c := ChildKey(e, k, i);
    a == Denote(e, c.x) && b == Denote(e, c.y)
  }

  /** Where two numbers meet in lists, cyclic ones included, stands their sum, difference or product. */
  lemma LeavesArithmetic(w: World, op: BinaryOp, a: Value, b: Value, lists: seq<seq<Value>>)
      returns (cache: map<Key, nat>)
    requires (op.Add? || op.Sub? || op.Mul?) && BinaryOn(w, op, a, b, lists).Ok?
    ensures var e := Env(w, op, lists, a, b);
            var r := BinaryOn(w, op, a, b, lists).value;
            && Image(e, cache, r.1) && Answers(e, cache, RootKey(e), r.0)
            && forall k, i, p, q, x, y :: k in cache && 0 <= i < |r.1[cache[k]]| && ItemOf(e, k, i, p, q)
                                          && IsNumber(w, p, x) && IsNumber(w, q, y) ==>
                 r.1[cache[k]][i] == Num(if op.Add? then x + y else if op.Sub? then x - y else x * y)
  {
    hide BinaryOn, Scalar2;
    cache := BinaryIsElementwise(w, op, a, b, lists);
    var e := Env(w, op, lists, a, b);
    var r := BinaryOn(w, op, a, b, lists).value;
    forall k, i, p, q, x, y | k in cache && 0 <= i < |r.1[cache[k]]| && ItemOf(e, k, i, p, q)
                              && IsNumber(w, p, x) && IsNumber(w, q, y)
      ensures r.1[cache[k]][i] == Num(if op.Add? then x + y else if op.Sub? then x - y else x * y)
    {
      LeafAnswer(e, cache, ChildKey(e, k, i), r.1[cache[k]][i]);
      ScalarArithmetic(w, p, q);
    }
  }

  lemma LeafAnswer(e: Env, cache: map<Key, nat>, k: Key, v: Value)
    requires Answers(e, cache, k, v) && !Denote(e, k.x).List? && !Denote(e, k.y).List?
    ensures var s := Scalar2(e.w, e.op, Denote(e, k.x), Denote(e, k.y)); s.Ok? && v == FromScalar(s.value)
  {
    hide Scalar2;
    if k.matrix {
      assert Answers(e, cache, Key(k.x, k.y, false), v);
    }
  }

  // ----- lists of numbers -----

  /** Values in a row, none of them a list, that count as the given numbers. */
  ghost predicate AreNumbers(w: World, vs: seq<Value>, xs: seq<real>) {
    |vs| == |xs| && forall i :: 0 <= i < |vs| ==> IsNumber(w, vs[i], xs[i])
  }

  function Compute(op: BinaryOp, x: real, y: real): real {
    if op.Add? then x + y else if op.Sub? then x - y else x * y
  }

  function Leaves(vs: seq<Value>): (ts: seq<L.Tree>)
    ensures |ts| == |vs|
  {
    seq(|vs|, i requires 0 <= i < |vs| => L.Leaf(vs[i]))
  }

  lemma FirstStep(lists: seq<seq<Value>>, p: seq<nat>)
    requires L.Walk(lists, p) && L.Revisits(p)
    ensures |p| > 1 && L.Linked(lists, p[0], p[1])
  {
  }

  lemma NoCycle(lists: seq<seq<Value>>, id: nat)
    requires id < |lists| && forall i :: 0 <= i < |lists[id]| ==> !lists[id][i].List?
    ensures !L.ReachesCycle(lists, List(id))
  {
    if p :| |p| > 0 && p[0] == id && L.Walk(lists, p) && L.Revisits(p) {
      FirstStep(lists, p);
      assert false;
    }
  }

  lemma RowTree(w: World, lists: seq<seq<Value>>, id: nat, xs: seq<real>)
    requires id < |lists| && AreNumbers(w, lists[id], xs)
    ensures !L.ReachesCycle(lists, List(id)) && L.Flat(lists, List(id), {}).Ok?
    ensures L.Unfold(lists, List(id), {}) == L.Node(Leaves(lists[id]))
  {
    forall i | 0 <= i < |lists[id]| ensures !lists[id][i].List? {
      assert IsNumber(w, lists[id][i], xs[i]);
    }
    NoCycle(lists, id);
    L.FlattenCyclic(lists, List(id));
    L.FlatIsFringe(lists, List(id), {});
    var t := L.Unfold(lists, List(id), {});
    assert t.Node? && |t.items| == |lists[id]|;
    forall i | 0 <= i < |t.items| ensures t.items[i] == L.Leaf(lists[id][i]) {
      assert L.Unfolds(lists, lists[id][i], t.items[i]);
      assert IsNumber(w, lists[id][i], xs[i]);
    }
  }

  lemma LeafTree(lists: seq<seq<Value>>, v: Value)
    requires !v.List?
    ensures !L.ReachesCycle(lists, v) && L.Flat(lists, v, {}).Ok? && L.Unfold(lists, v, {}) == L.Leaf(v)
  {
  }

  /** A row of numbers, or one number for all places. */
  ghost predicate Supplies(w: World, t: L.Tree, n: nat, xs: seq<real>) {
    && |xs| == n
    && if t.Leaf? then !t.v.List? && forall i :: 0 <= i < n ==> IsNumber(w, t.v, xs[i])
       else |t.items| >= n && (forall i :: 0 <= i < |t.items| ==> t.items[i].Leaf?)
            && forall i :: 0 <= i < n ==> IsNumber(w, t.items[i].v, xs[i])
  }

  lemma SuppliesAll(w: World, t: L.Tree, n: nat, xs: seq<real>)
    requires Supplies(w, t, n, xs)
    ensures |xs| == n
  {
    hide IsNumber;
  }

  lemma {:induction false} PlainRow(w: World, op: BinaryOp, t: L.Tree, u: L.Tree, n: nat, xs: seq<real>, ys: seq<real>,
                                    i: nat)
    requires (op.Add? || op.Sub? || op.Mul?) && Supplies(w, t, n, xs) && Supplies(w, u, n, ys) && i <= n
    requires (t.Node? || u.Node?) && Span(t, u, false) == n
    ensures var r := PlainItems(w, op, t, u, false, i);
            && r.Ok? && |r.value| == n - i
            && forall j :: 0 <= j < n - i ==> r.value[j] == Leaf(OfNum(Compute(op, xs[i + j], ys[i + j])))
    decreases n - i
  {
    hide Scalar2, IsNumber;
    if i < n {
      var a, b := Part(t, false, i), Part(u, false, i);
      assert a.Leaf? && b.Leaf?;
      ScalarArithmetic(w, a.v, b.v);
      assert IsNumber(w, a.v, xs[i]) && IsNumber(w, b.v, ys[i]);
      PlainRow(w, op, t, u, n, xs, ys, i + 1);
      var r, rest := PlainItems(w, op, t, u, false, i), PlainItems(w, op, t, u, false, i + 1);
      assert r.value == [Leaf(OfNum(Compute(op, xs[i], ys[i])))] + rest.value;
      forall j | 0 <= j < n - i ensures r.value[j] == Leaf(OfNum(Compute(op, xs[i + j], ys[i + j]))) {
        if 0 < j {
          assert rest.value[j - 1] == Leaf(OfNum(Compute(op, xs[i + 1 + (j - 1)], ys[i + 1 + (j - 1)])));
        }
      }
    }
  }

  /** On two lists of numbers, or a list and a number, an operator gives a list of the results, item by item, as far as
      the lists go. */
  lemma ListArithmetic(w: World, op: BinaryOp, a: Value, b: Value, t: L.Tree, u: L.Tree, n: nat, xs: seq<real>,
                       ys: seq<real>, lists: seq<seq<Value>>)
    requires op.Add? || op.Sub? || op.Mul?
    requires !L.ReachesCycle(lists, a) && !L.ReachesCycle(lists, b)
    requires L.Flat(lists, a, {}).Ok? && t == L.Unfold(lists, a, {})
    requires L.Flat(lists, b, {}).Ok? && u == L.Unfold(lists, b, {})
    requires Supplies(w, t, n, xs) && Supplies(w, u, n, ys) && (t.Node? || u.Node?) && Span(t, u, false) == n
    requires (t.Node? ==> |t.items| == 0 || t.items[0].Leaf?) && (u.Node? ==> |u.items| == 0 || u.items[0].Leaf?)
    ensures var r := BinaryOn(w, op, a, b, lists);
            && r.Ok? && r.value.0.List? && |Items(r.value.1, r.value.0.id)| == n
            && forall i :: 0 <= i < n ==>
                 Items(r.value.1, r.value.0.id)[i] == Num(Compute(op, xs[i], ys[i]))
  {
    hide BinaryOn, L.ReachesCycle, L.Flat, L.Unfold, PlainItems, Plain, Supplies, Span, IsNumber, Compute, Items;
    hide Spells;
    SuppliesAll(w, t, n, xs);
    SuppliesAll(w, u, n, ys);
    BinaryIsNaive(w, op, a, b, lists);
    PlainRow(w, op, t, u, n, xs, ys, 0);
    FlatRows(w, op, t, u);
    var r := BinaryOn(w, op, a, b, lists);
    var items := PlainItems(w, op, t, u, false, 0).value;
    SpelledItems(r.value.1, r.value.0, items);
    forall i | 0 <= i < n ensures Items(r.value.1, r.value.0.id)[i] == Num(Compute(op, xs[i], ys[i])) {
      assert items[i] == Leaf(OfNum(Compute(op, xs[0 + i], ys[0 + i])));
    }
  }

  /** Lists that begin with no list are taken apart in plain mode. */
  lemma FlatRows(w: World, op: BinaryOp, t: L.Tree, u: L.Tree)
    requires t.Node? || u.Node?
    requires (t.Node? ==> |t.items| == 0 || t.items[0].Leaf?) && (u.Node? ==> |u.items| == 0 || u.items[0].Leaf?)
    ensures Plain(w, op, t, u, true)
            == match PlainItems(w, op, t, u, false, 0) case Ok(items) => Ok(Node(items)) case Err(e) => Err(e)
  {
    hide PlainItems;
  }

  lemma SpelledItems(lists: seq<seq<Value>>, v: Value, ts: seq<Tree>)
    requires Spells(lists, v, Node(ts))
    ensures v.List? && |Items(lists, v.id)| == |ts|
    ensures forall i :: 0 <= i < |ts| && ts[i].Leaf? ==> Items(lists, v.id)[i] == FromScalar(ts[i].s)
  {
    hide Items;
    forall i | 0 <= i < |ts| && ts[i].Leaf? ensures Items(lists, v.id)[i] == FromScalar(ts[i].s) {
      assert Spells(lists, Items(lists, v.id)[i], ts[i]);
    }
  }

  /** Two lists of numbers. */
  lemma ListWithList(w: World, op: BinaryOp, a: nat, b: nat, xs: seq<real>, ys: seq<real>, lists: seq<seq<Value>>)
    requires (op.Add? || op.Sub? || op.Mul?) && a < |lists| && b < |lists|
    requires AreNumbers(w, lists[a], xs) && AreNumbers(w, lists[b], ys)
    ensures var r := BinaryOn(w, op, List(a), List(b), lists);
            && r.Ok? && r.value.0.List?
            && var items := Items(r.value.1, r.value.0.id);
               && |items| == (if |xs| < |ys| then |xs| else |ys|)
               && forall i :: 0 <= i < |items| ==> items[i] == Num(Compute(op, xs[i], ys[i]))
  {
    hide BinaryOn, L.ReachesCycle, L.Flat, L.Unfold, IsNumber, Compute;
    RowTree(w, lists, a, xs);
    RowTree(w, lists, b, ys);
    var n := if |xs| < |ys| then |xs| else |ys|;
    ListArithmetic(w, op, List(a), List(b), L.Node(Leaves(lists[a])), L.Node(Leaves(lists[b])), n, xs[..n], ys[..n],
                   lists);
  }

  /** A list of numbers and a number, on either side. */
  lemma ListWithNumber(w: World, op: BinaryOp, a: nat, v: Value, xs: seq<real>, y: real, lists: seq<seq<Value>>)
    requires (op.Add? || op.Sub? || op.Mul?) && a < |lists| && AreNumbers(w, lists[a], xs) && IsNumber(w, v, y)
    ensures var r := BinaryOn(w, op, List(a), v, lists);
            && r.Ok? && r.value.0.List? && |Items(r.value.1, r.value.0.id)| == |xs|
            && forall i :: 0 <= i < |xs| ==> Items(r.value.1, r.value.0.id)[i] == Num(Compute(op, xs[i], y))
    ensures var r := BinaryOn(w, op, v, List(a), lists);
            && r.Ok? && r.value.0.List? && |Items(r.value.1, r.value.0.id)| == |xs|
            && forall i :: 0 <= i < |xs| ==> Items(r.value.1, r.value.0.id)[i] == Num(Compute(op, y, xs[i]))
  {
    hide BinaryOn, L.ReachesCycle, L.Flat, L.Unfold, Compute;
    RowTree(w, lists, a, xs);
    LeafTree(lists, v);
    var ys := seq(|xs|, i => y);
    ListArithmetic(w, op, List(a), v, L.Node(Leaves(lists[a])), L.Leaf(v), |xs|, xs, ys, lists);
    ListArithmetic(w, op, v, List(a), L.Leaf(v), L.Node(Leaves(lists[a])), |xs|, ys, xs, lists);
  }

  /** What a unary operator leaves for an item that is no list. */
  ghost predicate Signed(w: World, op: UnaryOp, v: Value, r: Value) {
    && (forall x :: IsNumber(w, v, x) ==>
          && (op.ToNumber? ==> r == Num(x)) && (op.Neg? ==> r == Num(-x))
          && (op.Abs? ==> r == Num(if x < 0.0 then -x else x)))
    && (forall b :: v == Bool(b) && op.Not? ==> r == Bool(!b))
  }

  lemma ScalarSigned(w: World, op: UnaryOp, v: Value)
    requires Scalar1(w, op, v).Ok?
    ensures Signed(w, op, v, FromScalar(Scalar1(w, op, v).value))
  {
  }

  /** In the copy that a unary operator makes of lists, cyclic ones included, every item that is no list has been
      operated on. */
  lemma LeavesSigned(w: World, op: UnaryOp, v: Value, lists: seq<seq<Value>>) returns (origin: seq<nat>)
    requires UnaryOn(w, op, v, lists).Ok?
    ensures var r := UnaryOn(w, op, v, lists).value;
            && IsCopy(w, op, lists, r.1, origin, v, r.0)
            && (!v.List? ==> Signed(w, op, v, r.0))
            && forall j, i :: 0 <= j < |origin| && 0 <= i < |Items(lists, origin[j])|
                              && i < |r.1[|lists| + j]| && !Items(lists, origin[j])[i].List? ==>
                 Signed(w, op, Items(lists, origin[j])[i], r.1[|lists| + j][i])
  {
    hide UnaryOn, Scalar1, Items, Signed;
    origin := UnaryIsElementwise(w, op, v, lists);
    var r := UnaryOn(w, op, v, lists).value;
    if !v.List? {
      ScalarSigned(w, op, v);
    }
    forall j, i | 0 <= j < |origin| && 0 <= i < |Items(lists, origin[j])| && i < |r.1[|lists| + j]|
                  && !Items(lists, origin[j])[i].List?
      ensures Signed(w, op, Items(lists, origin[j])[i], r.1[|lists| + j][i])
    {
      assert CopyOf(w, op, lists, r.1, origin, j);
      assert Copies(w, op, |lists|, origin, Items(lists, origin[j])[i], r.1[|lists| + j][i]);
      ScalarSigned(w, op, Items(lists, origin[j])[i]);
    }
  }

  // ----- relations -----

  /** A relation of numbers. */
  predicate Holds(r: Relation, x: real, y: real) {
    || (r == Equal && x == y) || (r == NotEqual && x != y) || (r == Less && x < y) || (r == LessEq && x <= y)
    || (r == Greater && x > y) || (r == GreaterEq && x >= y)
  }

  lemma NumbersRelate(w: World, lists: seq<seq<Value>>, r: Relation, x: real, y: real)
    ensures Relates(w, lists, r, Num(x), Num(y)) == Ok(Holds(r, x, y))
  {
  }

  /** Other values relate as numbers in the same order do. Values that have no order are unequal, and to ask which one
      comes first is an error. */
  lemma OthersRelate(w: World, lists: seq<seq<Value>>, r: Relation, a: Value, b: Value)
    requires !a.Num? || !b.Num?
    ensures var c := w.compare(lists, a, b);
            && (c.Err? ==> Relates(w, lists, r, a, b) == Err(c.error))
            && (c == Ok(Some(Below)) ==> Relates(w, lists, r, a, b) == Ok(Holds(r, 0.0, 1.0)))
            && (c == Ok(Some(Same)) ==> Relates(w, lists, r, a, b) == Ok(Holds(r, 0.0, 0.0)))
            && (c == Ok(Some(Above)) ==> Relates(w, lists, r, a, b) == Ok(Holds(r, 1.0, 0.0)))
            && (c == Ok(None) && (r == Equal || r == NotEqual) ==> Relates(w, lists, r, a, b) == Ok(r == NotEqual))
            && (c == Ok(None) && r != Equal && r != NotEqual ==>
                  exists s, t ::
                    HasKind(a, s) && HasKind(b, t) && Relates(w, lists, r, a, b) == Err(Incomparable(s, t)))
  {
    assert HasKind(a, TypeOf(a)) && HasKind(b, TypeOf(b));
  }
}
