/** The dimensions of nested lists, and lists of given dimensions. */
module Shapes {
  import opened Common
  import opened Values
  import opened Lists

  // ----- dimensions -----

  /** The length of the longest list `d` levels down. */
  function Widest(t: Tree, d: nat): nat
    decreases t, 0
  {
    if t.Leaf? then 0 else if d == 0 then |t.items| else WidestOf(t.items, d - 1)
  }

  function WidestOf(ts: seq<Tree>, d: nat): nat
    decreases ts, |ts|
  {
    if ts == [] then 0 else Max(Widest(ts[0], d), WidestOf(ts[1..], d))
  }

  /** One number for each level that has a list. */
  function DimensionsOf(t: Tree): seq<nat> {
    seq(Height(t), d requires 0 <= d => Widest(t, d))
  }

  ghost function Dimensions(lists: seq<seq<Value>>, v: Value): Result<seq<nat>, Error> {
    var f := Flat(lists, v, {});
    if f.Err? then Err(f.error) else Ok(DimensionsOf(Unfold(lists, v, {})))
  }

  function At(res: seq<nat>, k: nat): nat {
    if k < |res| then res[k] else 0
  }

  /** Maxima per level, with a tree at level `depth` taken into account. */
  function Raised(res: seq<nat>, depth: nat, t: Tree): seq<nat> {
    seq(Max(|res|, depth + Height(t)), k requires 0 <= k =>
        Max(At(res, k), if k < depth then 0 else Widest(t, k - depth)))
  }

  function RaisedAll(res: seq<nat>, depth: nat, ts: seq<Tree>): seq<nat>
    decreases |ts|
  {
    if ts == [] then res else RaisedAll(Raised(res, depth, ts[0]), depth, ts[1..])
  }

  lemma {:induction false} RaisedByAll(res: seq<nat>, depth: nat, ts: seq<Tree>)
    requires depth <= |res|
    ensures RaisedAll(res, depth, ts) == seq(Max(|res|, depth + Heights(ts)), k requires 0 <= k =>
                                             Max(At(res, k), if k < depth then 0 else WidestOf(ts, k - depth)))
    decreases |ts|
  {
    if ts == [] {
      assert RaisedAll(res, depth, ts) == res;
    } else {
      RaisedByAll(Raised(res, depth, ts[0]), depth, ts[1..]);
      forall k | 0 <= k
        ensures At(Raised(res, depth, ts[0]), k) == Max(At(res, k), if k < depth then 0 else Widest(ts[0], k - depth))
      {
        if k >= depth {
          TooDeep(ts[0], k - depth);
        }
      }
    }
  }

  lemma {:induction false} TooDeep(t: Tree, d: nat)
    ensures d >= Height(t) ==> Widest(t, d) == 0
    decreases t, 0
  {
    if t.Node? && d > 0 {
      TooDeepAll(t.items, d - 1);
    }
  }

  lemma {:induction false} TooDeepAll(ts: seq<Tree>, d: nat)
    ensures d >= Heights(ts) ==> WidestOf(ts, d) == 0
    decreases ts, |ts|
  {
    if ts != [] {
      TooDeep(ts[0], d);
      TooDeepAll(ts[1..], d);
    }
  }

  /** A list: its own length, and then its items one level down. */
  lemma RaisedByNode(res: seq<nat>, depth: nat, ts: seq<Tree>)
    requires depth <= |res|
    ensures var res0 := if depth == |res| then res + [0] else res;
            Raised(res, depth, Node(ts)) == RaisedAll(res0[depth := Max(res0[depth], |ts|)], depth + 1, ts)
  {
    var res0 := if depth == |res| then res + [0] else res;
    var res1 := res0[depth := Max(res0[depth], |ts|)];
    RaisedByAll(res1, depth + 1, ts);
    var a, b := Raised(res, depth, Node(ts)), RaisedAll(res1, depth + 1, ts);
    assert |a| == |b|;
    forall k | 0 <= k < |a| ensures a[k] == b[k] {
    }
  }

  class Measuring {
    var res: seq<nat>
    var cache: set<nat>

    constructor ()
      ensures res == [] && cache == {}
    {
      res, cache := [], {};
    }

    method Visit(lists: seq<seq<Value>>, value: Value, depth: nat) returns (r: Result<(), Error>)
      requires depth <= |res|
      modifies this
      ensures var f := Flat(lists, value, old(cache));
              && r == (if f.Ok? then Ok(()) else Err(f.error))
              && (f.Ok? ==> res == Raised(old(res), depth, Unfold(lists, value, old(cache))) && cache == old(cache))
      decreases Left(lists, cache)
    {
      hide Left, Raised;
      if !value.List? {
        RaisedByLeaf(res, depth, value);
        return Ok(());
      }
      var key := value.id;
      ghost var path, was := cache, res;
      if depth == |res| {
        res := res + [0];
      }
      if key in cache {
        return Err(CyclicValue);
      }
      cache := cache + {key};
      var items := Items(lists, key);
      res := res[depth := Max(res[depth], |items|)];
      ghost var own := res;
      if key < |lists| {
        LeftLess(lists, path, key);
      }
      ghost var done: seq<Value> := [];
      assert items[0..] == items;
      NothingBefore(FlatItems(lists, items, cache));
      for i := 0 to |items|
        invariant cache == path + {key} && depth < |res|
        invariant FlatItems(lists, items, cache) == Before(done, FlatItems(lists, items[i..], cache))
        invariant FlatItems(lists, items, cache).Ok? ==>
                    RaisedAll(res, depth + 1, UnfoldItems(lists, items[i..], cache))
                        == RaisedAll(own, depth + 1, UnfoldItems(lists, items, cache))
      {
        assert items[i..][0] == items[i] && items[i..][1..] == items[i + 1..];
        ghost var more := Flat(lists, items[i], cache);
        ghost var before := res;
        var x := Visit(lists, items[i], depth + 1);
        if x.Err? {
          return x;
        }
        RaisedLonger(before, depth + 1, Unfold(lists, items[i], cache));
        BeforeMore(done, more.value, FlatItems(lists, items[i + 1..], cache));
        done := done + more.value;
      }
      cache := cache - {key};
      RaisedByNode(was, depth, UnfoldItems(lists, items, path + {key}));
      return Ok(());
    }
  }

  lemma RaisedLonger(res: seq<nat>, depth: nat, t: Tree)
    ensures |Raised(res, depth, t)| >= |res|
  {
  }

  lemma RaisedByLeaf(res: seq<nat>, depth: nat, v: Value)
    requires depth <= |res|
    ensures Raised(res, depth, Leaf(v)) == res
  {
  }

  method Measure(lists: seq<seq<Value>>, value: Value) returns (r: Result<seq<nat>, Error>)
    ensures r == Dimensions(lists, value)
  {
    var walk := new Measuring();
    var x := walk.Visit(lists, value, 0);
    assert x.Ok? ==> Raised([], 0, Unfold(lists, value, {})) == DimensionsOf(Unfold(lists, value, {}));
    return if x.Ok? then Ok(walk.res) else Err(x.error);
  }

  // ----- shapes -----

  function Product(dims: seq<nat>): nat
    decreases |dims|
  {
    if dims == [] then 1 else dims[0] * Product(dims[1..])
  }

  /** A regular nesting of lists, filled from `src` over and over, beginning at position `start`. */
  function Shape(dims: seq<nat>, start: nat, src: seq<Value>): Tree
    requires src != []
    decreases |dims|, 0
  {
    if dims == [] then Leaf(src[start % |src|]) else Node(Rows(dims[0], dims[1..], start, src))
  }

  function Rows(n: nat, dims: seq<nat>, start: nat, src: seq<Value>): (ts: seq<Tree>)
    requires src != []
    ensures |ts| == n
    decreases |dims|, 1 + n
  {
    if n == 0 then [] else [Shape(dims, start, src)] + Rows(n - 1, dims, start + Product(dims), src)
  }

  /** `n` items of `src`, repeated as often as necessary. */
  function Cycled(src: seq<Value>, start: nat, n: nat): seq<Value>
    requires src != []
  {
    seq(n, k requires 0 <= k => src[(start + k) % |src|])
  }

  lemma {:induction false} ShapeFringe(dims: seq<nat>, start: nat, src: seq<Value>)
    requires src != []
    ensures Fringe(Shape(dims, start, src)) == Cycled(src, start, Product(dims))
    decreases |dims|, 0
  {
    if dims != [] {
      RowsFringe(dims[0], dims[1..], start, src);
    }
  }

  lemma CycledSplit(src: seq<Value>, start: nat, p: nat, q: nat)
    requires src != []
    ensures Cycled(src, start, p + q) == Cycled(src, start, p) + Cycled(src, start + p, q)
  {
    var a, b := Cycled(src, start, p + q), Cycled(src, start, p) + Cycled(src, start + p, q);
    forall k | 0 <= k < p + q ensures a[k] == b[k] {
      assert k >= p ==> start + p + (k - p) == start + k;
    }
  }

  lemma {:induction false} RowsFringe(n: nat, dims: seq<nat>, start: nat, src: seq<Value>)
    requires src != []
    ensures Fringes(Rows(n, dims, start, src)) == Cycled(src, start, n * Product(dims))
    decreases |dims|, 1 + n
  {
    hide Cycled, Product;
    if n > 0 {
      ShapeFringe(dims, start, src);
      RowsFringe(n - 1, dims, start + Product(dims), src);
      var p, q := Product(dims), (n - 1) * Product(dims);
      assert n * Product(dims) == p + q;
      CycledSplit(src, start, p, q);
      assert Rows(n, dims, start, src)[1..] == Rows(n - 1, dims, start + p, src);
    } else {
      CycledNone(src, start);
    }
  }

  lemma CycledNone(src: seq<Value>, start: nat)
    requires src != []
    ensures Cycled(src, start, 0) == []
  {
  }

  lemma {:induction false} ShapeHeight(dims: seq<nat>, start: nat, src: seq<Value>)
    requires src != [] && 0 !in dims
    ensures Height(Shape(dims, start, src)) == |dims|
    decreases |dims|, 0
  {
    if dims != [] {
      assert dims[0] in dims;
      RowsHeight(dims[0], dims[1..], start, src);
    }
  }

  lemma {:induction false} RowsHeight(n: nat, dims: seq<nat>, start: nat, src: seq<Value>)
    requires src != [] && 0 !in dims
    ensures Heights(Rows(n, dims, start, src)) == if n == 0 then 0 else |dims|
    decreases |dims|, 1 + n
  {
    if n > 0 {
      ShapeHeight(dims, start, src);
      RowsHeight(n - 1, dims, start + Product(dims), src);
      assert Rows(n, dims, start, src)[1..] == Rows(n - 1, dims, start + Product(dims), src);
    }
  }

  lemma {:induction false} ShapeWidest(dims: seq<nat>, start: nat, src: seq<Value>, d: nat)
    requires src != [] && 0 !in dims && d < |dims|
    ensures Widest(Shape(dims, start, src), d) == dims[d]
    decreases |dims|, 0
  {
    assert dims[0] in dims;
    if d > 0 {
      RowsWidest(dims[0], dims[1..], start, src, d - 1);
    }
  }

  lemma {:induction false} RowsWidest(n: nat, dims: seq<nat>, start: nat, src: seq<Value>, d: nat)
    requires src != [] && 0 !in dims && d < |dims|
    ensures WidestOf(Rows(n, dims, start, src), d) == if n == 0 then 0 else dims[d]
    decreases |dims|, 1 + n
  {
    if n > 0 {
      ShapeWidest(dims, start, src, d);
      RowsWidest(n - 1, dims, start + Product(dims), src, d);
      assert Rows(n, dims, start, src)[1..] == Rows(n - 1, dims, start + Product(dims), src);
    }
  }

  /** A shape has the dimensions it was made for, as long as none of them is zero. */
  lemma ShapeDimensions(dims: seq<nat>, start: nat, src: seq<Value>)
    requires src != [] && 0 !in dims
    ensures DimensionsOf(Shape(dims, start, src)) == dims
  {
    ShapeHeight(dims, start, src);
    forall d | 0 <= d < |dims| ensures DimensionsOf(Shape(dims, start, src))[d] == dims[d] {
      ShapeWidest(dims, start, src, d);
    }
  }

  // ----- reshaping -----

  /** A value that is written out as `t` by lists that are all there. */
  ghost predicate Built(lists: seq<seq<Value>>, v: Value, t: Tree)
    decreases t
  {
    match t
    case Leaf(x) => !v.List? && x == v
    case Node(ts) =>
      v.List? && v.id < |lists| && |ts| == |lists[v.id]| && forall i :: 0 <= i < |ts| ==>
        Built(lists, lists[v.id][i], ts[i])
  }

  lemma {:induction false} BuiltUnfolds(lists: seq<seq<Value>>, v: Value, t: Tree)
    requires Built(lists, v, t)
    ensures Unfolds(lists, v, t)
    decreases t
  {
    if t.Node? {
      forall i | 0 <= i < |t.items| ensures Unfolds(lists, Items(lists, v.id)[i], t.items[i]) {
        BuiltUnfolds(lists, lists[v.id][i], t.items[i]);
      }
    }
  }

  lemma {:induction false} BuiltStays(lists: seq<seq<Value>>, more: seq<seq<Value>>, v: Value, t: Tree)
    requires Built(lists, v, t) && lists <= more
    ensures Built(more, v, t)
    decreases t
  {
    if t.Node? {
      forall i | 0 <= i < |t.items| ensures Built(more, more[v.id][i], t.items[i]) {
        BuiltStays(lists, more, lists[v.id][i], t.items[i]);
      }
    }
  }

  /** New lists are added to the heap, and the leaves are taken from a source that starts over at its end. */
  class Reshaping {
    var lists: seq<seq<Value>>
    const src: seq<Value>
    var next: nat
    ghost var taken: nat

    ghost predicate Valid()
      reads this
    {
      src != [] && next == taken % |src| && forall v :: v in src ==> !v.List?
    }

    constructor (lists: seq<seq<Value>>, src: seq<Value>)
      requires src != [] && forall v :: v in src ==> !v.List?
      ensures Valid() && this.lists == lists && this.src == src && taken == 0
    {
      this.lists, this.src, next, taken := lists, src, 0, 0;
    }

    method Next() returns (v: Value)
      requires Valid()
      modifies this
      ensures Valid() && lists == old(lists) && taken == old(taken) + 1 && v == src[old(taken) % |src|]
    {
      v := src[next];
      next := if next + 1 == |src| then 0 else next + 1;
      ModNext(taken, |src|);
      taken := taken + 1;
    }

    method Build(dims: seq<nat>) returns (v: Value)
      requires Valid()
      modifies this
      ensures Valid() && old(lists) <= lists && taken == old(taken) + Product(dims)
      ensures Built(lists, v, Shape(dims, old(taken), src))
      decreases |dims|
    {
      hide Built;
      if dims == [] {
        v := Next();
        assert v in src;
        BuiltLeaf(lists, v);
        return;
      }
      ghost var was, start := lists, taken;
      var rest := dims[1..];
      var items: seq<Value> := [];
      ghost var ts: seq<Tree> := [];
      for i := 0 to dims[0]
        invariant Valid() && was <= lists && taken == start + i * Product(rest)
        invariant |items| == i == |ts| && Rows(dims[0], rest, start, src) == ts + Rows(dims[0] - i, rest, taken, src)
        invariant forall j :: 0 <= j < i ==> Built(lists, items[j], ts[j])
      {
        ghost var before, at := lists, taken;
        var item := Build(rest);
        forall j | 0 <= j < i ensures Built(lists, items[j], ts[j]) {
          BuiltStays(before, lists, items[j], ts[j]);
        }
        ghost var t := Shape(rest, at, src);
        assert ts + Rows(dims[0] - i, rest, at, src) == ts + [t] + Rows(dims[0] - i - 1, rest, taken, src);
        assert (i + 1) * Product(rest) == i * Product(rest) + Product(rest);
        items, ts := items + [item], ts + [t];
      }
      assert ts == Rows(dims[0], rest, start, src);
      ghost var before := lists;
      lists := lists + [items];
      v := List(|lists| - 1);
      forall j | 0 <= j < |items| ensures Built(lists, items[j], ts[j]) {
        BuiltStays(before, lists, items[j], ts[j]);
      }
      BuiltNode(lists, v, ts);
    }
  }

  lemma BuiltLeaf(lists: seq<seq<Value>>, v: Value)
    requires !v.List?
    ensures Built(lists, v, Leaf(v))
  {
  }

  lemma BuiltNode(lists: seq<seq<Value>>, v: Value, ts: seq<Tree>)
    requires v.List? && v.id < |lists| && |ts| == |lists[v.id]| && forall i :: 0 <= i < |ts| ==>
               Built(lists, lists[v.id][i], ts[i])
    ensures Built(lists, v, Node(ts))
  {
  }

  lemma ModNext(t: nat, n: nat)
    requires n > 0
    ensures (t + 1) % n == if t % n + 1 == n then 0 else t % n + 1
  {
    var q, r := t / n, t % n;
    if r + 1 == n {
      assert t + 1 == n * (q + 1);
      ModMultiple(q + 1, n, 0);
    } else {
      assert t + 1 == n * q + (r + 1);
      ModMultiple(q, n, r + 1);
    }
  }

  lemma ModMultiple(q: nat, n: nat, r: nat)
    requires r < n
    ensures (n * q + r) % n == r
  {
    var x := n * q + r;
    assert x == n * (x / n) + x % n;
    if x / n < q {
      MulOrder(n, x / n + 1, q);
    } else if x / n > q {
      MulOrder(n, q + 1, x / n);
    }
  }

  lemma MulOrder(n: nat, a: nat, b: nat)
    requires a <= b
    ensures n * a <= n * b
  {
  }

  lemma {:induction false} FlatHasNoLists(lists: seq<seq<Value>>, v: Value, path: set<nat>)
    requires Flat(lists, v, path).Ok?
    ensures forall x :: x in Flat(lists, v, path).value ==> !x.List?
    decreases Left(lists, path), 0
  {
    if v.List? && v.id < |lists| {
      LeftLess(lists, path, v.id);
      FlatItemsHaveNoLists(lists, lists[v.id], path + {v.id});
    }
  }

  lemma {:induction false} FlatItemsHaveNoLists(lists: seq<seq<Value>>, items: seq<Value>, path: set<nat>)
    requires FlatItems(lists, items, path).Ok?
    ensures forall x :: x in FlatItems(lists, items, path).value ==> !x.List?
    decreases Left(lists, path), 1 + |items|
  {
    if items != [] {
      FlatHasNoLists(lists, items[0], path);
      FlatItemsHaveNoLists(lists, items[1..], path);
    }
  }

  /** What a reshaped value is filled with: the leaves of the source, or an empty text if it has none. */
  function Filling(leaves: seq<Value>): (r: seq<Value>)
    ensures r != []
  {
    if leaves == [] then [Txt([])] else leaves
  }

  /** `n` leaves: those of the source over and over, or empty texts if it has none. */
  ghost predicate Repeats(leaves: seq<Value>, r: Result<seq<Value>, Error>, n: nat) {
    && r.Ok? && |r.value| == n
    && forall k :: 0 <= k < n ==>
         if |leaves| == 0 then r.value[k] == Txt([]) else r.value[k] == leaves[k % |leaves|]
  }

  lemma CycledRepeats(leaves: seq<Value>, n: nat)
    ensures Repeats(leaves, Ok(Cycled(Filling(leaves), 0, n)), n)
  {
  }

  /** Reshaping adds lists to the heap; the result has the dimensions asked for, and its leaves are those of
      the source over and over. A dimension of zero gives an empty list, and a cyclic source is an error. */
  method Reshape(lists: seq<seq<Value>>, src: Value, dims: seq<nat>)
      returns (r: Result<(seq<seq<Value>>, Value), Error>)
    ensures 0 in dims ==> r == Ok((lists + [[]], List(|lists|)))
    ensures 0 !in dims ==> (r.Err? <==> Flat(lists, src, {}).Err?) && (r.Err? ==> r.error == CyclicValue)
    ensures 0 !in dims && r.Ok? ==>
              var (heap, v) := r.value;
              && lists <= heap && Dimensions(heap, v) == Ok(dims)
              && Repeats(Flat(lists, src, {}).value, Flat(heap, v, {}), Product(dims))
  {
    if 0 in dims {
      return Ok((lists + [[]], List(|lists|)));
    }
    var f := Flatten(lists, src);
    if f.Err? {
      FlattenCyclic(lists, src);
      return Err(f.error);
    }
    FlatHasNoLists(lists, src, {});
    var leaves := Filling(f.value);
    var walk := new Reshaping(lists, leaves);
    var v := walk.Build(dims);
    var t := Shape(dims, 0, leaves);
    BuiltUnfolds(walk.lists, v, t);
    TreeIsFlat(walk.lists, v, t);
    ShapeFringe(dims, 0, leaves);
    ShapeDimensions(dims, 0, leaves);
    CycledRepeats(f.value, Product(dims));
    return Ok((walk.lists, v));
  }
}
