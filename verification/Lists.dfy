/** Nested lists: taking them apart and shaping them anew, on heaps in which lists may be cyclic. */
module Lists {
  import opened Common
  import opened FiniteSets
  import opened Bytecode
  import opened Values

  // ----- flattening -----

  /** Lists that are not on the way from the root: what makes the walks below end. */
  ghost function Left(lists: seq<seq<Value>>, path: set<nat>): nat {
    |UpTo(|lists|) - path|
  }

  lemma LeftLess(lists: seq<seq<Value>>, path: set<nat>, id: nat)
    requires id < |lists| && id !in path
    ensures Left(lists, path + {id}) < Left(lists, path)
  {
    var all := UpTo(|lists|);
    SubsetSize(all - (path + {id}), all - path - {id});
    assert |all - path - {id}| == |all - path| - 1;
  }

  /** The leaves of a value in order, below the lists of `path`; an error if a list is met inside itself. */
  ghost function Flat(lists: seq<seq<Value>>, v: Value, path: set<nat>): Result<seq<Value>, Error>
    decreases Left(lists, path), 0
  {
    if !v.List? then Ok([v])
    else if v.id in path then Err(CyclicValue)
    else if v.id >= |lists| then Ok([])
    else
      LeftLess(lists, path, v.id);
      FlatItems(lists, lists[v.id], path + {v.id})
  }

  ghost function FlatItems(lists: seq<seq<Value>>, items: seq<Value>, path: set<nat>): Result<seq<Value>, Error>
    decreases Left(lists, path), 1 + |items|
  {
    if items == [] then Ok([])
    else
      var first := Flat(lists, items[0], path);
      if first.Err? then first
      else
        var rest := FlatItems(lists, items[1..], path);
        if rest.Err? then rest else Ok(first.value + rest.value)
  }

  /** The walk of the interpreter, with the output and the set of lists on the way as it updates them. */
  class Flattening {
    var dest: seq<Value>
    var cache: set<nat>

    constructor ()
      ensures dest == [] && cache == {}
    {
      dest, cache := [], {};
    }

    method Visit(lists: seq<seq<Value>>, value: Value) returns (r: Result<(), Error>)
      modifies this
      ensures var f := Flat(lists, value, old(cache));
              && r == (if f.Ok? then Ok(()) else Err(f.error))
              && (f.Ok? ==> dest == old(dest) + f.value && cache == old(cache))
      decreases Left(lists, cache)
    {
      hide Left;
      if !value.List? {
        dest := dest + [value];
        return Ok(());
      }
      var key := value.id;
      if key in cache {
        return Err(CyclicValue);
      }
      ghost var path, was := cache, dest;
      cache := cache + {key};
      var items := Items(lists, key);
      if key < |lists| {
        LeftLess(lists, path, key);
      }
      ghost var done: seq<Value> := [];
      assert items[0..] == items;
      NothingBefore(FlatItems(lists, items, cache));
      for i := 0 to |items|
        invariant cache == path + {key} && dest == was + done
        invariant FlatItems(lists, items, cache) == Before(done, FlatItems(lists, items[i..], cache))
      {
        assert items[i..][0] == items[i] && items[i..][1..] == items[i + 1..];
        ghost var more := Flat(lists, items[i], cache);
        var x := Visit(lists, items[i]);
        if x.Err? {
          return x;
        }
        BeforeMore(done, more.value, FlatItems(lists, items[i + 1..], cache));
        done := done + more.value;
      }
      cache := cache - {key};
      return Ok(());
    }
  }

  ghost function Before(s: seq<Value>, r: Result<seq<Value>, Error>): Result<seq<Value>, Error> {
    if r.Ok? then Ok(s + r.value) else r
  }

  lemma NothingBefore(r: Result<seq<Value>, Error>)
    ensures Before([], r) == r
  {
    if r.Ok? {
      assert [] + r.value == r.value;
    }
  }

  lemma BeforeMore(a: seq<Value>, b: seq<Value>, r: Result<seq<Value>, Error>)
    ensures Before(a, Before(b, r)) == Before(a + b, r)
  {
    if r.Ok? {
      assert a + (b + r.value) == a + b + r.value;
    }
  }

  method Flatten(lists: seq<seq<Value>>, value: Value) returns (r: Result<seq<Value>, Error>)
    ensures r == Flat(lists, value, {})
  {
    var walk := new Flattening();
    var x := walk.Visit(lists, value);
    assert x.Ok? ==> [] + Flat(lists, value, {}).value == Flat(lists, value, {}).value;
    return if x.Ok? then Ok(walk.dest) else Err(x.error);
  }

  // ----- cycles -----

  /** A walk from list to list, each one an item of the one before. */
  ghost predicate Walk(lists: seq<seq<Value>>, p: seq<nat>) {
    forall i, j :: 0 <= i < |p| && 0 <= j < |p| && j == i + 1 ==> Linked(lists, p[i], p[j])
  }

  ghost predicate Linked(lists: seq<seq<Value>>, a: nat, b: nat) {
    a < |lists| && List(b) in lists[a]
  }

  lemma WalkPart(lists: seq<seq<Value>>, p: seq<nat>, n: nat)
    requires Walk(lists, p) && n <= |p|
    ensures Walk(lists, p[n..])
  {
    hide Linked;
    var q := p[n..];
    forall i, j | 0 <= i < |q| && 0 <= j < |q| && j == i + 1 ensures Linked(lists, q[i], q[j]) {
      assert q[i] == p[n + i] && q[j] == p[n + j];
    }
  }

  lemma WalkOn(lists: seq<seq<Value>>, p: seq<nat>, id: nat)
    requires Walk(lists, p) && (p != [] ==> Linked(lists, p[|p| - 1], id))
    ensures Walk(lists, p + [id])
  {
    hide Linked;
  }

  ghost predicate Revisits(p: seq<nat>) {
    exists i, j :: 0 <= i < j < |p| && p[i] == p[j]
  }

  ghost predicate ReachesCycle(lists: seq<seq<Value>>, v: Value) {
    v.List? && exists p :: |p| > 0 && p[0] == v.id && Walk(lists, p) && Revisits(p)
  }

  ghost function Visited(p: seq<nat>): set<nat> {
    set x | x in p
  }

  lemma {:induction false} CycleFound(lists: seq<seq<Value>>, v: Value, w: seq<nat>) returns (p: seq<nat>)
    requires Flat(lists, v, Visited(w)).Err? && (v.List? ==> Walk(lists, w + [v.id]))
    ensures v.List? && w + [v.id] <= p && Walk(lists, p) && Revisits(p)
    decreases Left(lists, Visited(w)), 0
  {
    var next := w + [v.id];
    if v.id in Visited(w) {
      p := next;
      var i :| 0 <= i < |w| && w[i] == v.id;
      assert p[i] == p[|w|];
    } else {
      LeftLess(lists, Visited(w), v.id);
      assert Visited(next) == Visited(w) + {v.id};
      p := CycleInItems(lists, lists[v.id], v.id, w);
    }
  }

  lemma {:induction false} CycleInItems(lists: seq<seq<Value>>, items: seq<Value>, id: nat, w: seq<nat>)
      returns (p: seq<nat>)
    requires id < |lists| && (forall x :: x in items ==> x in lists[id]) && Walk(lists, w + [id])
             && FlatItems(lists, items, Visited(w + [id])).Err?
    ensures w + [id] <= p && Walk(lists, p) && Revisits(p)
    decreases Left(lists, Visited(w + [id])), 1 + |items|
  {
    if Flat(lists, items[0], Visited(w + [id])).Err? {
      var next := w + [id];
      if items[0].List? {
        assert items[0] in items;
        WalkOn(lists, next, items[0].id);
      }
      p := CycleFound(lists, items[0], next);
    } else {
      p := CycleInItems(lists, items[1..], id, w);
    }
  }

  /** Where flattening succeeds, no walk meets a list twice. */
  lemma {:induction false} NoRevisit(lists: seq<seq<Value>>, path: set<nat>, p: seq<nat>)
    requires |p| > 0 && Walk(lists, p) && Flat(lists, List(p[0]), path).Ok?
    ensures !Revisits(p) && forall x :: x in p ==> x !in path
    decreases |p|
  {
    if |p| > 1 {
      var rest := p[1..];
      WalkPart(lists, p, 1);
      assert Linked(lists, p[0], p[1]);
      ItemFlat(lists, lists[p[0]], path + {p[0]}, List(p[1]));
      NoRevisit(lists, path + {p[0]}, rest);
      assert p == [p[0]] + rest;
    }
  }

  lemma {:induction false} ItemFlat(lists: seq<seq<Value>>, items: seq<Value>, path: set<nat>, x: Value)
    requires FlatItems(lists, items, path).Ok? && x in items
    ensures Flat(lists, x, path).Ok?
    decreases |items|
  {
    if items[0] != x {
      assert x in items[1..];
      ItemFlat(lists, items[1..], path, x);
    }
  }

  /** Flattening reports a cycle exactly when the value reaches a list that reaches itself. */
  lemma FlattenCyclic(lists: seq<seq<Value>>, v: Value)
    ensures Flat(lists, v, {}).Err? <==> ReachesCycle(lists, v)
    ensures Flat(lists, v, {}).Err? ==> Flat(lists, v, {}) == Err(CyclicValue)
  {
    assert Visited([]) == {};
    if Flat(lists, v, {}).Err? {
      FlatError(lists, v, {});
      var p := CycleFound(lists, v, []);
      assert ([] + [v.id])[0] == p[0];
    } else if ReachesCycle(lists, v) {
      var p :| |p| > 0 && p[0] == v.id && Walk(lists, p) && Revisits(p);
      NoRevisit(lists, {}, p);
    }
  }

  lemma {:induction false} FlatError(lists: seq<seq<Value>>, v: Value, path: set<nat>)
    requires Flat(lists, v, path).Err?
    ensures Flat(lists, v, path).error == CyclicValue
    decreases Left(lists, path), 0
  {
    if v.id !in path {
      LeftLess(lists, path, v.id);
      FlatItemsError(lists, lists[v.id], path + {v.id});
    }
  }

  lemma {:induction false} FlatItemsError(lists: seq<seq<Value>>, items: seq<Value>, path: set<nat>)
    requires FlatItems(lists, items, path).Err?
    ensures FlatItems(lists, items, path).error == CyclicValue
    decreases Left(lists, path), 1 + |items|
  {
    if Flat(lists, items[0], path).Err? {
      FlatError(lists, items[0], path);
    } else {
      FlatItemsError(lists, items[1..], path);
    }
  }

  // ----- finite values, as trees -----

  datatype Tree = Leaf(v: Value) | Node(items: seq<Tree>)

  /** `t` is what a value looks like when all its lists are written out. */
  ghost predicate Unfolds(lists: seq<seq<Value>>, v: Value, t: Tree)
    decreases t
  {
    match t
    case Leaf(x) => !v.List? && x == v
    case Node(ts) =>
      v.List? && |ts| == |Items(lists, v.id)| && forall i :: 0 <= i < |ts| ==>
        Unfolds(lists, Items(lists, v.id)[i], ts[i])
  }

  function Fringe(t: Tree): seq<Value>
    decreases t, 0
  {
    match t
    case Leaf(v) => [v]
    case Node(ts) => Fringes(ts)
  }

  function Fringes(ts: seq<Tree>): seq<Value>
    decreases ts, |ts|
  {
    if ts == [] then [] else Fringe(ts[0]) + Fringes(ts[1..])
  }

  /** The tree of a value without cycles. */
  ghost function Unfold(lists: seq<seq<Value>>, v: Value, path: set<nat>): Tree
    requires Flat(lists, v, path).Ok?
    decreases Left(lists, path), 0
  {
    if !v.List? then Leaf(v)
    else if v.id >= |lists| then Node([])
    else
      LeftLess(lists, path, v.id);
      Node(UnfoldItems(lists, lists[v.id], path + {v.id}))
  }

  ghost function UnfoldItems(lists: seq<seq<Value>>, items: seq<Value>, path: set<nat>): (ts: seq<Tree>)
    requires FlatItems(lists, items, path).Ok?
    ensures |ts| == |items|
    decreases Left(lists, path), 1 + |items|
  {
    if items == [] then [] else [Unfold(lists, items[0], path)] + UnfoldItems(lists, items[1..], path)
  }

  /** Without cycles, flattening gives the leaves of the tree from left to right. */
  lemma {:induction false} FlatIsFringe(lists: seq<seq<Value>>, v: Value, path: set<nat>)
    requires Flat(lists, v, path).Ok?
    ensures Unfolds(lists, v, Unfold(lists, v, path)) && Flat(lists, v, path) == Ok(Fringe(Unfold(lists, v, path)))
    decreases Left(lists, path), 0
  {
    if v.List? && v.id < |lists| {
      LeftLess(lists, path, v.id);
      FlatItemsAreFringes(lists, lists[v.id], path + {v.id});
    }
  }

  lemma {:induction false} FlatItemsAreFringes(lists: seq<seq<Value>>, items: seq<Value>, path: set<nat>)
    requires FlatItems(lists, items, path).Ok?
    ensures var ts := UnfoldItems(lists, items, path);
            && FlatItems(lists, items, path) == Ok(Fringes(ts))
            && forall i :: 0 <= i < |items| ==> Unfolds(lists, items[i], ts[i])
    decreases Left(lists, path), 1 + |items|
  {
    if items != [] {
      FlatIsFringe(lists, items[0], path);
      FlatItemsAreFringes(lists, items[1..], path);
      var ts := UnfoldItems(lists, items, path);
      assert ts[1..] == UnfoldItems(lists, items[1..], path);
      forall i | 0 <= i < |items| ensures Unfolds(lists, items[i], ts[i]) {
        if i > 0 {
          assert items[i] == items[1..][i - 1] && ts[i] == ts[1..][i - 1];
        }
      }
    }
  }

  lemma {:induction false} OneTree(lists: seq<seq<Value>>, v: Value, t: Tree, u: Tree)
    requires Unfolds(lists, v, t) && Unfolds(lists, v, u)
    ensures t == u
    decreases t
  {
    if t.Node? {
      forall i | 0 <= i < |t.items| ensures t.items[i] == u.items[i] {
        OneTree(lists, Items(lists, v.id)[i], t.items[i], u.items[i]);
      }
      assert t.items == u.items;
    }
  }

  /** Conversely, a value that can be written out flattens to the leaves of its tree. */
  lemma {:induction false} TreeIsFlat(lists: seq<seq<Value>>, v: Value, t: Tree)
    requires Unfolds(lists, v, t)
    ensures Flat(lists, v, {}) == Ok(Fringe(t)) && Unfold(lists, v, {}) == t
  {
    if Flat(lists, v, {}).Err? {
      assert Visited([]) == {};
      var p := CycleFound(lists, v, []);
      assert ([] + [v.id])[0] == p[0];
      TreesDescend(lists, p, t);
    } else {
      FlatIsFringe(lists, v, {});
      OneTree(lists, v, t, Unfold(lists, v, {}));
    }
  }

  function Height(t: Tree): nat
    decreases t, 0
  {
    if t.Leaf? then 0 else 1 + Heights(t.items)
  }

  function Heights(ts: seq<Tree>): nat
    decreases ts, |ts|
  {
    if ts == [] then 0 else Max(Height(ts[0]), Heights(ts[1..]))
  }

  function Max(a: nat, b: nat): nat {
    if a < b then b else a
  }

  lemma {:induction false} ItemHeight(ts: seq<Tree>, i: nat)
    requires i < |ts|
    ensures Height(ts[i]) <= Heights(ts)
    decreases ts
  {
    if i > 0 {
      ItemHeight(ts[1..], i - 1);
    }
  }

  /** Along a walk from a finite value, the trees get lower: it cannot come back to where it was. */
  lemma {:induction false} TreesDescend(lists: seq<seq<Value>>, p: seq<nat>, t: Tree)
    requires |p| > 0 && Walk(lists, p) && Unfolds(lists, List(p[0]), t)
    ensures !Revisits(p)
    decreases |p|
  {
    forall i, j | 0 <= i < j < |p| ensures p[i] != p[j] {
      var a := TreeAt(lists, p, t, i);
      WalkPart(lists, p, i);
      var b := TreeAt(lists, p[i..], a, j - i);
      if p[i] == p[j] {
        OneTree(lists, List(p[i]), a, b);
      }
    }
  }

  lemma {:induction false} TreeAt(lists: seq<seq<Value>>, p: seq<nat>, t: Tree, n: nat) returns (u: Tree)
    requires n < |p| && Walk(lists, p) && Unfolds(lists, List(p[0]), t)
    ensures Unfolds(lists, List(p[n]), u) && (if n == 0 then u == t else Height(u) < Height(t))
    decreases n
  {
    hide Linked, Unfolds, Height;
    if n == 0 {
      u := t;
    } else {
      var s := TreeAt(lists, p, t, n - 1);
      assert Linked(lists, p[n - 1], p[n]);
      u := ItemTree(lists, p[n - 1], s, p[n]);
    }
  }

  lemma ItemTree(lists: seq<seq<Value>>, id: nat, t: Tree, x: nat) returns (u: Tree)
    requires Linked(lists, id, x) && Unfolds(lists, List(id), t)
    ensures Unfolds(lists, List(x), u) && Height(u) < Height(t)
  {
    var i :| 0 <= i < |lists[id]| && lists[id][i] == List(x);
    assert Unfolds(lists, Items(lists, id)[i], t.items[i]);
    u := t.items[i];
    ItemHeight(t.items, i);
  }
}
