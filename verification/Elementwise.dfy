/** Scalar operators applied elementwise to lists. Lists may be shared and cyclic; a memo of the pairs
    already met makes the recursion finite and carries the sharing over to the result. */
module Elementwise {
  import opened Common
  import opened FiniteSets
  import opened Bytecode
  import opened Values

  /** A place an operand can stand: one of the two arguments, or a slot of a list. */
  datatype Place = Arg(second: bool) | Slot(list: nat, index: nat)

  /** What the interpreter takes as the identity of a value: the object for references, and the place
      where it is stored for anything else. */
  datatype Identity = OfList(id: nat) | OfClosure(id: nat) | AtPlace(p: Place)

  datatype Key = Key(x: Identity, y: Identity, matrix: bool)

  /** The operation at hand: operator, operands, and the lists they live in. */
  datatype Env = Env(w: World, op: BinaryOp, lists: seq<seq<Value>>, a: Value, b: Value)

  /** Memo of the result lists, and the result lists themselves, numbered after the operand lists. */
  datatype Memo = Memo(cache: map<Key, nat>, out: seq<seq<Value>>)

  function Identify(v: Value, p: Place): Identity {
    if v.List? then OfList(v.id) else if v.Closure? then OfClosure(v.id) else AtPlace(p)
  }

  /** The value an identity stands for. */
  function Denote(e: Env, x: Identity): Value {
    match x
    case OfList(id) => List(id)
    case OfClosure(id) => Closure(id)
    case AtPlace(Arg(second)) => if second then e.b else e.a
    case AtPlace(Slot(l, i)) => if l < |e.lists| && i < |e.lists[l]| then e.lists[l][i] else Num(0.0)
  }

  /** Whether an operand is taken apart: any list, or in matrix mode a list that starts with a list. */
  predicate Opens(e: Env, x: Identity, matrix: bool) {
    && x.OfList?
    && (matrix ==> var items := Items(e.lists, x.id); items != [] && items[0].List?)
  }

  function Child(e: Env, x: Identity, matrix: bool, i: nat): Identity {
    if Opens(e, x, matrix) && i < |Items(e.lists, x.id)| then Identify(Items(e.lists, x.id)[i], Slot(x.id, i)) else x
  }

  predicate Fans(e: Env, k: Key) {
    Opens(e, k.x, k.matrix) || Opens(e, k.y, k.matrix)
  }

  /** Number of result items: the shorter of two lists, or the length of the only one. */
  function Width(e: Env, k: Key): nat {
    var m, n := if k.x.OfList? then |Items(e.lists, k.x.id)| else 0, if k.y.OfList? then |Items(e.lists, k.y.id)|
      else 0;
    if Opens(e, k.x, k.matrix) && Opens(e, k.y, k.matrix) then if m < n then m else n
    else if Opens(e, k.x, k.matrix) then m
    else n
  }

  function ChildKey(e: Env, k: Key, i: nat): Key {
    Key(Child(e, k.x, k.matrix, i), Child(e, k.y, k.matrix, i), k.matrix)
  }

  // ----- termination: the pairs not yet in the memo -----

  /** Identities closed under taking list items. */
  ghost predicate Closed(e: Env, known: set<Identity>) {
    forall l, i :: 0 <= l < |e.lists| && 0 <= i < |e.lists[l]| ==> Identify(e.lists[l][i], Slot(l, i)) in known
  }

  ghost function Keys(known: set<Identity>): set<Key> {
    set x, y, m: bool | x in known && y in known :: Key(x, y, m)
  }

  ghost function Absent(m: Memo, known: set<Identity>): nat {
    |Keys(known) - m.cache.Keys|
  }

  lemma Shrinks<T>(u: set<T>, a: set<T>, b: set<T>)
    requires a <= b
    ensures |u - b| <= |u - a|
    ensures (exists k :: k in u && k in b && k !in a) ==> |u - b| < |u - a|
  {
    SubsetSize(u - b, u - a);
    if k :| k in u && k in b && k !in a {
      SubsetSize(u - b, u - a - {k});
      assert |u - a - {k}| == |u - a| - 1;
    }
  }

  lemma AbsentMonotone(m: Memo, m': Memo, known: set<Identity>)
    requires m.cache.Keys <= m'.cache.Keys
    ensures Absent(m', known) <= Absent(m, known)
  {
    Shrinks(Keys(known), m.cache.Keys, m'.cache.Keys);
  }

  lemma AbsentDecreases(m: Memo, k: Key, r: nat, out: seq<seq<Value>>, known: set<Identity>)
    requires k in Keys(known) && k !in m.cache
    ensures Absent(Memo(m.cache[k := r], out), known) < Absent(m, known)
  {
    var c := m.cache[k := r];
    assert k in c.Keys;
    Shrinks(Keys(known), m.cache.Keys, c.Keys);
  }

  lemma ChildKnown(e: Env, x: Identity, matrix: bool, i: nat, known: set<Identity>)
    requires Closed(e, known) && x in known
    ensures Child(e, x, matrix, i) in known
  {
    if Opens(e, x, matrix) && i < |Items(e.lists, x.id)| {
      assert e.lists[x.id][i] == Items(e.lists, x.id)[i];
    }
  }

  // ----- the operator -----

  /** Appends a value to result list `r`. */
  function Push(e: Env, m: Memo, r: nat, v: Value): (m': Memo)
    ensures m'.cache == m.cache && |m'.out| == |m.out|
  {
    if |e.lists| <= r < |e.lists| + |m.out| then
      m.(out := m.out[r - |e.lists| := m.out[r - |e.lists|] + [v]])
    else m
  }

  /** The result for a pair of operands. A pair already in the memo gives the list found there, even
      when that list is still being filled. A pair that fans out gets a new list, entered in the memo
      before its items are computed. Otherwise matrix mode falls back to plain lists, and plain mode
      to the scalar operator. */
  function Apply(e: Env, k: Key, m: Memo, ghost known: set<Identity>): (r: Result<(Value, Memo), Error>)
    requires Closed(e, known) && k.x in known && k.y in known
    ensures r.Ok? ==> m.cache.Keys <= r.value.1.cache.Keys
    decreases Absent(m, known), if k.matrix then 1 else 0, 0
  {
    if k in m.cache then Ok((List(m.cache[k]), m))
    else if Fans(e, k) then
      var r := |e.lists| + |m.out|;
      AbsentDecreases(m, k, r, m.out + [[]], known);
      Fill(e, k, r, 0, Memo(m.cache[k := r], m.out + [[]]), known)
    else if k.matrix then Apply(e, Key(k.x, k.y, false), m, known)
    else
      var s := Scalar2(e.w, e.op, Denote(e, k.x), Denote(e, k.y));
      if s.Err? then Err(s.error) else Ok((FromScalar(s.value), m))
  }

  /** Computes the items of result list `r` from item `i` on. */
  function Fill(e: Env, k: Key, r: nat, i: nat, m: Memo,
                ghost known: set<Identity>): (res: Result<(Value, Memo), Error>)
    requires Closed(e, known) && k.x in known && k.y in known
    ensures res.Ok? ==> m.cache.Keys <= res.value.1.cache.Keys
    decreases Absent(m, known), 2, if i <= Width(e, k) then Width(e, k) - i else 0
  {
    if i >= Width(e, k) then Ok((List(r), m))
    else
      ChildKnown(e, k.x, k.matrix, i, known);
      ChildKnown(e, k.y, k.matrix, i, known);
      var item := Apply(e, ChildKey(e, k, i), m, known);
      if item.Err? then Err(item.error)
      else
        var next := Push(e, item.value.1, r, item.value.0);
        AbsentMonotone(m, next, known);
        Fill(e, k, r, i + 1, next, known)
  }

  ghost function Known(e: Env): (known: set<Identity>)
    ensures Closed(e, known)
    ensures Identify(e.a, Arg(false)) in known && Identify(e.b, Arg(true)) in known
  {
    {Identify(e.a, Arg(false)), Identify(e.b, Arg(true))}
    + set l, i | 0 <= l < |e.lists| && 0 <= i < |e.lists[l]| :: Identify(e.lists[l][i], Slot(l, i))
  }

  function RootKey(e: Env): Key {
    Key(Identify(e.a, Arg(false)), Identify(e.b, Arg(true)), true)
  }

  /** A binary operator on any two values: the result, and all lists including the new ones. */
  function BinaryOn(w: World, op: BinaryOp, a: Value, b: Value,
                    lists: seq<seq<Value>>): Result<(Value, seq<seq<Value>>), Error> {
    var e := Env(w, op, lists, a, b);
    var r := Apply(e, RootKey(e), Memo(map[], []), Known(e));
    if r.Err? then Err(r.error) else Ok((r.value.0, lists + r.value.1.out))
  }

  /** On two numbers this is plain arithmetic. */
  lemma BinaryOnNumbers(w: World, op: BinaryOp, x: real, y: real, lists: seq<seq<Value>>)
    requires op.Add? || op.Sub? || op.Mul?
    ensures BinaryOn(w, op, Num(x), Num(y), lists) == Ok((Num(Arith(op, x, y)), lists))
  {
    var e := Env(w, op, lists, Num(x), Num(y));
    var k := RootKey(e);
    var m := Memo(map[], []);
    assert Apply(e, k, m, Known(e)) == Apply(e, Key(k.x, k.y, false), m, Known(e));
    assert lists + [] == lists;
  }

  lemma ApplyCases(e: Env, k: Key, m: Memo, known: set<Identity>)
    requires Closed(e, known) && k.x in known && k.y in known
    ensures k in m.cache ==> Apply(e, k, m, known) == Ok((List(m.cache[k]), m))
    ensures k !in m.cache && Fans(e, k) ==>
              var r := |e.lists| + |m.out|;
              Apply(e, k, m, known) == Fill(e, k, r, 0, Memo(m.cache[k := r], m.out + [[]]), known)
    ensures k !in m.cache && !Fans(e, k) && k.matrix ==>
              Apply(e, k, m, known) == Apply(e, Key(k.x, k.y, false), m, known)
    ensures k !in m.cache && !Fans(e, k) && !k.matrix ==>
              var s := Scalar2(e.w, e.op, Denote(e, k.x), Denote(e, k.y));
              Apply(e, k, m, known) == if s.Err? then Err(s.error) else Ok((FromScalar(s.value), m))
  {
    hide Closed, Fans, Fill, Absent, Scalar2, Denote;
  }

  lemma FillCases(e: Env, k: Key, r: nat, i: nat, m: Memo, known: set<Identity>)
    requires Closed(e, known) && k.x in known && k.y in known
    ensures i >= Width(e, k) ==> Fill(e, k, r, i, m, known) == Ok((List(r), m))
    ensures i < Width(e, k) ==>
              && ChildKey(e, k, i).x in known && ChildKey(e, k, i).y in known
              && var item := Apply(e, ChildKey(e, k, i), m, known);
                 Fill(e, k, r, i, m, known) ==
                   if item.Err? then Err(item.error)
                   else Fill(e, k, r, i + 1, Push(e, item.value.1, r, item.value.0), known)
  {
    hide Closed, Apply, Absent, Width, Push;
    ChildKnown(e, k.x, k.matrix, i, known);
    ChildKnown(e, k.y, k.matrix, i, known);
  }

  /** The same, in the form the interpreter runs: one memo, and a loop that fills each result list. */
  method BinaryOpImpl(e: Env, k: Key, m0: Memo, ghost known: set<Identity>) returns (res: Result<(Value, Memo), Error>)
    requires Closed(e, known) && k.x in known && k.y in known
    ensures res == Apply(e, k, m0, known)
    decreases Absent(m0, known), if k.matrix then 1 else 0
  {
    hide Absent, Fans, Closed, Apply, Fill, Width, ChildKey, Scalar2, Denote, Push;
    ApplyCases(e, k, m0, known);
    if k in m0.cache {
      return Ok((List(m0.cache[k]), m0));
    }
    if !Fans(e, k) {
      if k.matrix {
        res := BinaryOpImpl(e, Key(k.x, k.y, false), m0, known);
      } else {
        var s := Scalar2(e.w, e.op, Denote(e, k.x), Denote(e, k.y));
        res := if s.Err? then Err(s.error) else Ok((FromScalar(s.value), m0));
      }
      return;
    }
    var r := |e.lists| + |m0.out|;
    AbsentDecreases(m0, k, r, m0.out + [[]], known);
    var m := Memo(m0.cache[k := r], m0.out + [[]]);
    for i := 0 to Width(e, k)
      invariant Absent(m, known) < Absent(m0, known)
      invariant Apply(e, k, m0, known) == Fill(e, k, r, i, m, known)
    {
      FillCases(e, k, r, i, m, known);
      var item := BinaryOpImpl(e, ChildKey(e, k, i), m, known);
      if item.Err? {
        return Err(item.error);
      }
      AbsentMonotone(m, Push(e, item.value.1, r, item.value.0), known);
      m := Push(e, item.value.1, r, item.value.0);
    }
    FillCases(e, k, r, Width(e, k), m, known);
    res := Ok((List(r), m));
  }

  // ----- unary operators: the memo holds only the lists being taken apart -----

  ghost predicate ClosedLists(lists: seq<seq<Value>>, known: set<nat>) {
    forall l, i :: 0 <= l < |lists| && 0 <= i < |lists[l]| && lists[l][i].List? ==> lists[l][i].id in known
  }

  lemma PathDecreases(known: set<nat>, path: map<nat, nat>, id: nat, r: nat)
    requires id in known && id !in path
    ensures |known - path[id := r].Keys| < |known - path.Keys|
  {
    assert id in path[id := r].Keys;
    Shrinks(known, path.Keys, path[id := r].Keys);
  }

  /** A unary operator on any value: lists are copied item by item; a list met again inside itself
      gives the copy being built. `out` collects the copies. */
  function ApplyUnary(w: World, op: UnaryOp, lists: seq<seq<Value>>, v: Value, path: map<nat, nat>,
                      out: seq<seq<Value>>, ghost known: set<nat>)
    : (res: Result<(Value, seq<seq<Value>>), Error>)
    requires ClosedLists(lists, known) && (v.List? ==> v.id in known)
    ensures res.Ok? ==> |out| <= |res.value.1|
    decreases |known - path.Keys|, 0
  {
    if !v.List? then
      var s := Scalar1(w, op, v);
      if s.Err? then Err(s.error) else Ok((FromScalar(s.value), out))
    else if v.id in path then Ok((List(path[v.id]), out))
    else
      var r := |lists| + |out|;
      PathDecreases(known, path, v.id, r);
      FillUnary(w, op, lists, v.id, path[v.id := r], r, 0, out + [[]], known)
  }

  function FillUnary(w: World, op: UnaryOp, lists: seq<seq<Value>>, id: nat, path: map<nat, nat>, r: nat, i: nat,
                     out: seq<seq<Value>>, ghost known: set<nat>)
    : (res: Result<(Value, seq<seq<Value>>), Error>)
    requires ClosedLists(lists, known)
    ensures res.Ok? ==> |out| <= |res.value.1|
    decreases |known - path.Keys|, 1, if i <= |Items(lists, id)| then |Items(lists, id)| - i else 0
  {
    if i >= |Items(lists, id)| then Ok((List(r), out))
    else
      var item := ApplyUnary(w, op, lists, Items(lists, id)[i], path, out, known);
      if item.Err? then Err(item.error)
      else
        var o := item.value.1;
        var next := if |lists| <= r < |lists| + |o| then o[r - |lists| := o[r - |lists|] + [item.value.0]] else o;
        FillUnary(w, op, lists, id, path, r, i + 1, next, known)
  }

  ghost function KnownLists(v: Value, lists: seq<seq<Value>>): (known: set<nat>)
    ensures ClosedLists(lists, known) && (v.List? ==> v.id in known)
  {
    (if v.List? then {v.id} else {})
    + set l, i | 0 <= l < |lists| && 0 <= i < |lists[l]| && lists[l][i].List? :: lists[l][i].id
  }

  function UnaryOn(w: World, op: UnaryOp, v: Value, lists: seq<seq<Value>>): Result<(Value, seq<seq<Value>>), Error> {
    var r := ApplyUnary(w, op, lists, v, map[], [], KnownLists(v, lists));
    if r.Err? then Err(r.error) else Ok((r.value.0, lists + r.value.1))
  }

  ghost function Unseen(known: set<nat>, path: map<nat, nat>): nat {
    |known - path.Keys|
  }

  lemma UnseenLess(known: set<nat>, path: map<nat, nat>, id: nat, r: nat)
    requires id in known && id !in path
    ensures Unseen(known, path[id := r]) < Unseen(known, path)
  {
    PathDecreases(known, path, id, r);
  }

  lemma UnaryCases(w: World, op: UnaryOp, lists: seq<seq<Value>>, v: Value, path: map<nat, nat>, out: seq<seq<Value>>,
                   known: set<nat>)
    requires ClosedLists(lists, known) && (v.List? ==> v.id in known)
    ensures !v.List? ==> ApplyUnary(w, op, lists, v, path, out, known) == (var s := Scalar1(w, op, v);
                if s.Err? then Err(s.error) else Ok((FromScalar(s.value), out)))
    ensures v.List? && v.id in path ==> ApplyUnary(w, op, lists, v, path, out, known) == Ok((List(path[v.id]), out))
    ensures v.List? && v.id !in path ==>
              ApplyUnary(w, op, lists, v, path, out, known)
                  == FillUnary(w, op, lists, v.id, path[v.id := |lists| + |out|], |lists| + |out|, 0, out + [[]], known)
  {
    hide ClosedLists, Scalar1, FillUnary;
  }

  /** The same, in the form the interpreter runs: the copy is entered in the memo while it is filled, and
      taken out of it again. */
  method UnaryOpImpl(w: World, op: UnaryOp, lists: seq<seq<Value>>, v: Value, path: map<nat, nat>,
                     out0: seq<seq<Value>>, ghost known: set<nat>)
    returns (res: Result<(Value, seq<seq<Value>>), Error>)
    requires ClosedLists(lists, known) && (v.List? ==> v.id in known)
    ensures res == ApplyUnary(w, op, lists, v, path, out0, known)
    decreases Unseen(known, path)
  {
    hide ApplyUnary, Unseen, ClosedLists, Scalar1;
    UnaryCases(w, op, lists, v, path, out0, known);
    if !v.List? {
      var s := Scalar1(w, op, v);
      return if s.Err? then Err(s.error) else Ok((FromScalar(s.value), out0));
    }
    if v.id in path {
      return Ok((List(path[v.id]), out0));
    }
    var r := |lists| + |out0|;
    UnseenLess(known, path, v.id, r);
    var cache := path[v.id := r];
    var out := out0 + [[]];
    var items := Items(lists, v.id);
    for i := 0 to |items|
      invariant |lists| <= r < |lists| + |out|
      invariant FillUnary(w, op, lists, v.id, cache, r, 0, out0 + [[]], known)
                == FillUnary(w, op, lists, v.id, cache, r, i, out, known)
    {
      ItemKnown(lists, v.id, i, known);
      var item := UnaryOpImpl(w, op, lists, items[i], cache, out, known);
      if item.Err? {
        return Err(item.error);
      }
      out := item.value.1;
      out := out[r - |lists| := out[r - |lists|] + [item.value.0]];
    }
    res := Ok((List(r), out));
  }

  lemma ItemKnown(lists: seq<seq<Value>>, id: nat, i: nat, known: set<nat>)
    requires ClosedLists(lists, known) && i < |Items(lists, id)|
    ensures Items(lists, id)[i].List? ==> Items(lists, id)[i].id in known
  {
    assert Items(lists, id)[i] == lists[id][i];
  }

  lemma AbsOfNumber(w: World, x: real, lists: seq<seq<Value>>)
    ensures UnaryOn(w, Abs, Num(x), lists) == Ok((Num(if x < 0.0 then -x else x), lists))
  {
    assert lists + [] == lists;
  }
}
