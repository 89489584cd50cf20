/** What the elementwise operators compute: on every heap the result is the item-by-item image of the
    operands, and on lists without cycles it is the plain recursive definition. */
module ElementwiseProofs {
  import opened Common
  import opened Bytecode
  import opened Values
  import opened Elementwise
  import L = Lists

  /** `v` is the right result for a pair, given which pairs have which result lists. */
  ghost predicate Answers(e: Env, cache: map<Key, nat>, k: Key, v: Value)
    decreases k.matrix
  {
    if Fans(e, k) then k in cache && v == List(cache[k])
    else if k.matrix then Answers(e, cache, Key(k.x, k.y, false), v)
    else
      var s := Scalar2(e.w, e.op, Denote(e, k.x), Denote(e, k.y));
      s.Ok? && v == FromScalar(s.value)
  }

  /** The items of result list `r`. */
  function Result_(e: Env, out: seq<seq<Value>>, r: nat): seq<Value> {
    if |e.lists| <= r < |e.lists| + |out| then out[r - |e.lists|] else []
  }

  /** The result list of a pair so far: item `i` answers the pair of items `i`, and the list is full
      unless the pair is still open. */
  ghost predicate Fills(e: Env, m: Memo, k: Key, open: set<Key>)
    requires k in m.cache
  {
    var r := m.cache[k];
    && |e.lists| <= r < |e.lists| + |m.out|
    && Fans(e, k)
    && var items := Result_(e, m.out, r);
       |items| <= Width(e, k) && (k !in open ==> |items| == Width(e, k))
       && forall i :: 0 <= i < |items| ==> Answers(e, m.cache, ChildKey(e, k, i), items[i])
  }

  ghost predicate Injective(cache: map<Key, nat>) {
    forall k1, k2 :: k1 in cache && k2 in cache && cache[k1] == cache[k2] ==> k1 == k2
  }

  ghost predicate Sound(e: Env, m: Memo, open: set<Key>) {
    && open <= m.cache.Keys
    && Injective(m.cache)
    && forall k :: k in m.cache ==> Fills(e, m, k, open)
  }

  /** The memo only grew: old entries and old result lists are unchanged, except possibly list `r`. */
  ghost predicate Grown(e: Env, m: Memo, m': Memo, r: Option<nat>) {
    && (forall k :: k in m.cache ==> k in m'.cache && m'.cache[k] == m.cache[k])
    && |m.out| <= |m'.out|
    && forall j :: 0 <= j < |m.out| && r != Some(|e.lists| + j) ==> m'.out[j] == m.out[j]
  }

  lemma AnswersGrow(e: Env, cache: map<Key, nat>, cache': map<Key, nat>, k: Key, v: Value)
    requires forall q :: q in cache ==> q in cache' && cache'[q] == cache[q]
    requires Answers(e, cache, k, v)
    ensures Answers(e, cache', k, v)
  {
    if !Fans(e, k) && k.matrix {
      var k' := Key(k.x, k.y, false);
    }
  }

  /** Entering a new pair with an empty list. */
  lemma OpenPair(e: Env, m: Memo, k: Key, open: set<Key>)
    requires Sound(e, m, open) && k !in m.cache && Fans(e, k)
    ensures
      var r := |e.lists| + |m.out|;
      var m' := Memo(m.cache[k := r], m.out + [[]]);
      Sound(e, m', open + {k}) && Grown(e, m, m', None) && Result_(e, m'.out, r) == []
  {
    var r := |e.lists| + |m.out|;
    var m' := Memo(m.cache[k := r], m.out + [[]]);
    forall q | q in m'.cache ensures Fills(e, m', q, open + {k}) {
      if q != k {
        assert Fills(e, m, q, open);
        var items := Result_(e, m.out, m.cache[q]);
        forall i | 0 <= i < |items| ensures Answers(e, m'.cache, ChildKey(e, q, i), items[i]) {
          AnswersGrow(e, m.cache, m'.cache, ChildKey(e, q, i), items[i]);
        }
      }
    }
    forall q | q in m.cache ensures m.cache[q] != r {
      assert Fills(e, m, q, open);
    }
  }

  /** Appending the right item to an open list. */
  lemma PushItem(e: Env, m: Memo, k: Key, open: set<Key>, v: Value)
    requires Sound(e, m, open) && k in open
    requires |Result_(e, m.out, m.cache[k])| < Width(e, k)
    requires Answers(e, m.cache, ChildKey(e, k, |Result_(e, m.out, m.cache[k])|), v)
    ensures
      var m' := Push(e, m, m.cache[k], v);
      && Sound(e, m', open) && Grown(e, m, m', Some(m.cache[k]))
      && |Result_(e, m'.out, m.cache[k])| == |Result_(e, m.out, m.cache[k])| + 1
  {
    hide Answers, Fans, Width, ChildKey;
    var m' := Push(e, m, m.cache[k], v);
    assert Fills(e, m, k, open);
    forall q | q in m'.cache ensures Fills(e, m', q, open) {
      assert Fills(e, m, q, open);
      if q != k {
        assert m.cache[q] != m.cache[k];
        PushOther(e, m, k, q, v, open);
      } else {
        PushOwn(e, m, k, v, open);
      }
    }
  }

  lemma PushOther(e: Env, m: Memo, k: Key, q: Key, v: Value, open: set<Key>)
    requires k in m.cache && q in m.cache && m.cache[q] != m.cache[k] && Fills(e, m, q, open)
    ensures Fills(e, Push(e, m, m.cache[k], v), q, open)
  {
    hide Answers, Fans, Width, ChildKey;
    assert Result_(e, Push(e, m, m.cache[k], v).out, m.cache[q]) == Result_(e, m.out, m.cache[q]);
  }

  lemma PushOwn(e: Env, m: Memo, k: Key, v: Value, open: set<Key>)
    requires k in m.cache && k in open && Fills(e, m, k, open) && |Result_(e, m.out, m.cache[k])| < Width(e, k)
    requires Answers(e, m.cache, ChildKey(e, k, |Result_(e, m.out, m.cache[k])|), v)
    ensures Fills(e, Push(e, m, m.cache[k], v), k, open)
  {
    hide Answers, Fans, Width, ChildKey;
    var items := Result_(e, m.out, m.cache[k]);
    assert Result_(e, Push(e, m, m.cache[k], v).out, m.cache[k]) == items + [v];
  }

  /** A full list can be closed. */
  lemma ClosePair(e: Env, m: Memo, k: Key, open: set<Key>)
    requires Sound(e, m, open) && k in m.cache
    requires |Result_(e, m.out, m.cache[k])| == Width(e, k)
    ensures Sound(e, m, open - {k})
  {
    forall q | q in m.cache ensures Fills(e, m, q, open - {k}) {
      assert Fills(e, m, q, open);
    }
  }

  lemma GrownTransitive(e: Env, m: Memo, m1: Memo, m2: Memo, r: Option<nat>)
    requires Grown(e, m, m1, None) && Grown(e, m1, m2, r)
    ensures Grown(e, m, m2, r)
    ensures r.Some? && r.value >= |e.lists| + |m.out| ==> Grown(e, m, m2, None)
  {}

  lemma GrownBoth(e: Env, m: Memo, m1: Memo, m2: Memo, r: nat)
    requires Grown(e, m, m1, Some(r)) && Grown(e, m1, m2, Some(r))
    ensures Grown(e, m, m2, Some(r))
  {}

  /** Results that do not depend on what is still to be filled in. */
  lemma PlainAnswers(e: Env, k: Key, m: Memo, known: set<Identity>, open: set<Key>)
    requires Closed(e, known) && k.x in known && k.y in known && Sound(e, m, open)
             && (k in m.cache || (!Fans(e, k) && !k.matrix))
    ensures var r := Apply(e, k, m, known); r.Ok? ==> r.value.1 == m && Answers(e, m.cache, k, r.value.0)
  {
    hide Absent, Width, Closed;
    if k in m.cache {
      assert Fills(e, m, k, open);
    }
  }

  lemma FallsBack(e: Env, k: Key, m: Memo, known: set<Identity>)
    requires Closed(e, known) && k.x in known && k.y in known && k !in m.cache && !Fans(e, k) && k.matrix
    ensures Apply(e, k, m, known) == Apply(e, Key(k.x, k.y, false), m, known)
    ensures forall cache, v :: Answers(e, cache, k, v) == Answers(e, cache, Key(k.x, k.y, false), v)
  {
    hide Absent, Width, Closed, Opens, Fans;
  }

  lemma GrownSame(e: Env, m: Memo)
    ensures Grown(e, m, m, None)
  {
  }

  lemma FanAnswers(e: Env, cache: map<Key, nat>, k: Key, r: nat)
    requires Fans(e, k) && k in cache && cache[k] == r
    ensures Answers(e, cache, k, List(r))
  {
  }

  lemma {:induction false} ApplySound(e: Env, k: Key, m: Memo, known: set<Identity>, open: set<Key>)
    requires Closed(e, known) && k.x in known && k.y in known && Sound(e, m, open)
    ensures
      var r := Apply(e, k, m, known);
      r.Ok? ==> Sound(e, r.value.1, open) && Grown(e, m, r.value.1, None) && Answers(e, r.value.1.cache, k, r.value.0)
    decreases Absent(m, known), if k.matrix then 1 else 0, 0
  {
    hide Absent, Width, Fans, Closed, Sound, Grown, Answers, Apply, Fill;
    GrownSame(e, m);
    if k in m.cache || (!Fans(e, k) && !k.matrix) {
      PlainAnswers(e, k, m, known, open);
    } else if Fans(e, k) {
      var r := |e.lists| + |m.out|;
      AbsentDecreases(m, k, r, m.out + [[]], known);
      OpenPair(e, m, k, open);
      ApplyCases(e, k, m, known);
      var m1 := Memo(m.cache[k := r], m.out + [[]]);
      FillSound(e, k, r, 0, m1, known, open + {k});
      SoundKeys(e, m, open);
      assert open + {k} - {k} == open;
      var res := Fill(e, k, r, 0, m1, known);
      if res.Ok? {
        GrownTransitive(e, m, m1, res.value.1, Some(r));
        FanAnswers(e, res.value.1.cache, k, r);
      }
    } else {
      FallsBack(e, k, m, known);
      ApplySound(e, Key(k.x, k.y, false), m, known, open);
    }
  }

  lemma {:induction false} FillSound(e: Env, k: Key, r: nat, i: nat, m: Memo, known: set<Identity>, open: set<Key>)
    requires Closed(e, known) && k.x in known && k.y in known && Sound(e, m, open)
    requires k in open && m.cache[k] == r && |Result_(e, m.out, r)| == i <= Width(e, k)
    ensures
      var res := Fill(e, k, r, i, m, known);
      res.Ok? ==> Sound(e, res.value.1, open - {k}) && Grown(e, m, res.value.1, Some(r)) && res.value.0 == List(r)
                  && k in res.value.1.cache && res.value.1.cache[k] == r
    decreases Absent(m, known), 2, if i <= Width(e, k) then Width(e, k) - i else 0
  {
    hide Absent, Width, Sound, Answers, Push, Closed;
    if i >= Width(e, k) {
      SoundKeys(e, m, open);
      ClosePair(e, m, k, open);
    } else {
      ChildKnown(e, k.x, k.matrix, i, known);
      ChildKnown(e, k.y, k.matrix, i, known);
      var item := Apply(e, ChildKey(e, k, i), m, known);
      ApplySound(e, ChildKey(e, k, i), m, known, open);
      if item.Ok? {
        SoundKeys(e, m, open);
        ResultKept(e, m, item.value.1, open, k);
        PushItem(e, item.value.1, k, open, item.value.0);
        var next := Push(e, item.value.1, r, item.value.0);
        GrownWeaken(e, m, item.value.1, r);
        GrownBoth(e, m, item.value.1, next, r);
        AbsentMonotone(m, next, known);
        FillSound(e, k, r, i + 1, next, known, open);
        var res := Fill(e, k, r, i + 1, next, known);
        if res.Ok? {
          GrownBoth(e, m, next, res.value.1, r);
        }
      }
    }
  }

  lemma SoundKeys(e: Env, m: Memo, open: set<Key>)
    requires Sound(e, m, open)
    ensures open <= m.cache.Keys
    ensures forall k :: k in m.cache ==> |e.lists| <= m.cache[k] < |e.lists| + |m.out|
  {
    forall k | k in m.cache ensures |e.lists| <= m.cache[k] < |e.lists| + |m.out| {
      assert Fills(e, m, k, open);
    }
  }

  lemma ResultKept(e: Env, m: Memo, m1: Memo, open: set<Key>, k: Key)
    requires Grown(e, m, m1, None) && k in m.cache && |e.lists| <= m.cache[k] < |e.lists| + |m.out|
    ensures k in m1.cache && m1.cache[k] == m.cache[k]
    ensures Result_(e, m1.out, m.cache[k]) == Result_(e, m.out, m.cache[k])
  {}

  lemma GrownWeaken(e: Env, m: Memo, m1: Memo, r: nat)
    requires Grown(e, m, m1, None)
    ensures Grown(e, m, m1, Some(r))
  {}

  /** The new lists are the images of the pairs: the list of a pair has one item for each pair of
      items, and each of them is the result for that pair of items. */
  ghost predicate Image(e: Env, cache: map<Key, nat>, lists: seq<seq<Value>>) {
    && e.lists <= lists
    && (forall k :: k in cache ==> |e.lists| <= cache[k] < |lists|)
    && (forall k :: k in cache ==> |lists[cache[k]]| == Width(e, k))
    && (forall k, i :: k in cache && 0 <= i < |lists[cache[k]]| ==>
          Answers(e, cache, ChildKey(e, k, i), lists[cache[k]][i]))
  }

  /** On every finite heap, cyclic ones included, a successful operation returns the result for its
      operands, where results are taken item by item; the operand lists are unchanged. */
  lemma BinaryIsElementwise(w: World, op: BinaryOp, a: Value, b: Value, lists: seq<seq<Value>>)
      returns (cache: map<Key, nat>)
    requires BinaryOn(w, op, a, b, lists).Ok?
    ensures
      var e := Env(w, op, lists, a, b);
      var r := BinaryOn(w, op, a, b, lists).value;
      Image(e, cache, r.1) && Answers(e, cache, RootKey(e), r.0)
  {
    var e := Env(w, op, lists, a, b);
    var m0 := Memo(map[], []);
    ApplySound(e, RootKey(e), m0, Known(e), {});
    var m := Apply(e, RootKey(e), m0, Known(e)).value.1;
    cache := m.cache;
    var all := lists + m.out;
    SoundKeys(e, m, {});
    forall k | k in cache ensures all[cache[k]] == Result_(e, m.out, cache[k]) && Fills(e, m, k, {}) {
    }
  }

  // ----- lists without cycles: the plain recursive definition -----

  /** A result seen as a tree. */
  datatype Tree = Leaf(s: Scalar) | Node(items: seq<Tree>)

  /** A list that no walk comes back from. */
  ghost predicate Finite(lists: seq<seq<Value>>, id: nat) {
    L.Flat(lists, List(id), {}).Ok?
  }

  ghost function Rank(lists: seq<seq<Value>>, id: nat): nat {
    if Finite(lists, id) then L.Height(L.Unfold(lists, List(id), {})) else 0
  }

  lemma ItemRank(lists: seq<seq<Value>>, id: nat, i: nat)
    requires Finite(lists, id) && i < |Items(lists, id)| && Items(lists, id)[i].List?
    ensures Finite(lists, Items(lists, id)[i].id) && Rank(lists, Items(lists, id)[i].id) < Rank(lists, id)
  {
    hide L.Flat, L.Unfold, L.Height;
    var x := Items(lists, id)[i];
    L.FlatIsFringe(lists, List(id), {});
    var t := L.Unfold(lists, List(id), {});
    TreeItem(lists, id, t, i);
    L.TreeIsFlat(lists, x, t.items[i]);
  }

  lemma TreeItem(lists: seq<seq<Value>>, id: nat, t: L.Tree, i: nat)
    requires L.Unfolds(lists, List(id), t) && i < |Items(lists, id)|
    ensures t.Node? && i < |t.items| && L.Unfolds(lists, Items(lists, id)[i], t.items[i])
            && L.Height(t.items[i]) < L.Height(t)
  {
    assert L.Unfolds(lists, Items(lists, id)[i], t.items[i]);
    L.ItemHeight(t.items, i);
  }

  ghost predicate FiniteKey(e: Env, k: Key) {
    (k.x.OfList? ==> Finite(e.lists, k.x.id)) && (k.y.OfList? ==> Finite(e.lists, k.y.id))
  }

  ghost function Weight(e: Env, x: Identity): nat {
    if x.OfList? then Rank(e.lists, x.id) + 1 else 0
  }

  ghost function KeyWeight(e: Env, k: Key): nat {
    Weight(e, k.x) + Weight(e, k.y)
  }

  lemma ChildLess(e: Env, x: Identity, matrix: bool, i: nat)
    requires (x.OfList? ==> Finite(e.lists, x.id)) && (Opens(e, x, matrix) ==> i < |Items(e.lists, x.id)|)
    ensures var c := Child(e, x, matrix, i);
            && (c.OfList? ==> Finite(e.lists, c.id)) && Weight(e, c) <= Weight(e, x)
            && (Opens(e, x, matrix) ==> Weight(e, c) < Weight(e, x))
  {
    hide Finite, Rank;
    if Opens(e, x, matrix) && Items(e.lists, x.id)[i].List? {
      ItemRank(e.lists, x.id, i);
    }
  }

  lemma ChildWeight(e: Env, k: Key, i: nat)
    requires FiniteKey(e, k) && Fans(e, k) && i < Width(e, k)
    ensures FiniteKey(e, ChildKey(e, k, i)) && KeyWeight(e, ChildKey(e, k, i)) < KeyWeight(e, k)
  {
    hide Finite, Weight, Opens, Child;
    WidthBound(e, k, i);
    ChildLess(e, k.x, k.matrix, i);
    ChildLess(e, k.y, k.matrix, i);
  }

  lemma WidthBound(e: Env, k: Key, i: nat)
    requires Fans(e, k) && i < Width(e, k)
    ensures Opens(e, k.x, k.matrix) ==> i < |Items(e.lists, k.x.id)|
    ensures Opens(e, k.y, k.matrix) ==> i < |Items(e.lists, k.y.id)|
  {
  }

  /** The operator without a memo. */
  ghost function Naive(e: Env, k: Key): Result<Tree, Error>
    requires FiniteKey(e, k)
    decreases KeyWeight(e, k), k.matrix, 1, 0
  {
    if Fans(e, k) then
      var items := NaiveItems(e, k, 0);
      if items.Err? then Err(items.error) else Ok(Node(items.value))
    else if k.matrix then Naive(e, Key(k.x, k.y, false))
    else
      var s := Scalar2(e.w, e.op, Denote(e, k.x), Denote(e, k.y));
      if s.Err? then Err(s.error) else Ok(Leaf(s.value))
  }

  ghost function NaiveItems(e: Env, k: Key, i: nat): Result<seq<Tree>, Error>
    requires FiniteKey(e, k) && Fans(e, k)
    decreases KeyWeight(e, k), false, 0, if i <= Width(e, k) then Width(e, k) - i else 0
  {
    if i >= Width(e, k) then Ok([])
    else
      ChildWeight(e, k, i);
      var first := Naive(e, ChildKey(e, k, i));
      if first.Err? then Err(first.error)
      else
        var rest := NaiveItems(e, k, i + 1);
        if rest.Err? then Err(rest.error) else Ok([first.value] + rest.value)
  }

  /** A value of the heap spells out a tree. */
  ghost predicate Spells(lists: seq<seq<Value>>, v: Value, t: Tree)
    decreases t
  {
    match t
    case Leaf(s) => v == FromScalar(s)
    case Node(ts) =>
      v.List? && |Items(lists, v.id)| == |ts| && forall i :: 0 <= i < |ts| ==>
        Spells(lists, Items(lists, v.id)[i], ts[i])
  }

  lemma {:induction false} ImageSpells(e: Env, cache: map<Key, nat>, lists: seq<seq<Value>>, k: Key, v: Value)
    requires FiniteKey(e, k) && Image(e, cache, lists) && Answers(e, cache, k, v)
    ensures Naive(e, k).Ok? && Spells(lists, v, Naive(e, k).value)
    decreases KeyWeight(e, k), k.matrix, 1, 0
  {
    hide FiniteKey, KeyWeight, Finite;
    if Fans(e, k) {
      ImageItems(e, cache, lists, k, 0);
      assert Items(lists, cache[k])[0..] == Items(lists, cache[k]);
    } else if k.matrix {
      SameWeight(e, k);
      ImageSpells(e, cache, lists, Key(k.x, k.y, false), v);
    }
  }

  lemma SameWeight(e: Env, k: Key)
    ensures KeyWeight(e, Key(k.x, k.y, false)) == KeyWeight(e, k)
    ensures FiniteKey(e, k) ==> FiniteKey(e, Key(k.x, k.y, false))
  {
  }

  lemma {:induction false} ImageItems(e: Env, cache: map<Key, nat>, lists: seq<seq<Value>>, k: Key, i: nat)
    requires FiniteKey(e, k) && Image(e, cache, lists) && Fans(e, k) && k in cache && i <= Width(e, k)
    ensures |Items(lists, cache[k])| == Width(e, k)
    ensures
      var ts := NaiveItems(e, k, i);
      ts.Ok? && |ts.value| == Width(e, k) - i
      && forall j :: 0 <= j < |ts.value| ==> Spells(lists, Items(lists, cache[k])[i..][j], ts.value[j])
    decreases KeyWeight(e, k), false, 0, Width(e, k) - i
  {
    hide FiniteKey, KeyWeight, Finite;
    var items := Items(lists, cache[k]);
    if i < Width(e, k) {
      ChildWeight(e, k, i);
      assert Answers(e, cache, ChildKey(e, k, i), lists[cache[k]][i]);
      ImageSpells(e, cache, lists, ChildKey(e, k, i), items[i]);
      ImageItems(e, cache, lists, k, i + 1);
      var ts := NaiveItems(e, k, i).value;
      forall j | 0 <= j < |ts| ensures Spells(lists, items[i..][j], ts[j]) {
        if j > 0 {
          assert items[i..][j] == items[i + 1..][j - 1];
        }
      }
    }
  }

  /** A pair that is known to have a result. */
  ghost predicate Succeeds(e: Env, k: Key) {
    FiniteKey(e, k) && Naive(e, k).Ok?
  }

  /** Entries of the memo that are not open are known to succeed, and open ones weigh more than `weight`. */
  ghost predicate Settled(e: Env, m: Memo, open: set<Key>, weight: nat) {
    && (forall q :: q in m.cache && q !in open ==> Succeeds(e, q))
    && (forall q :: q in open ==> weight < KeyWeight(e, q))
  }

  lemma {:induction false} ApplyIsNaive(e: Env, k: Key, m: Memo, known: set<Identity>, open: set<Key>)
    requires Closed(e, known) && k.x in known && k.y in known && FiniteKey(e, k)
    requires Settled(e, m, open, KeyWeight(e, k))
    ensures
      var r := Apply(e, k, m, known);
      && (r.Err? ==> Naive(e, k) == Err(r.error))
      && (r.Ok? ==> Succeeds(e, k) && Settled(e, r.value.1, open, KeyWeight(e, k)))
    decreases Absent(m, known), if k.matrix then 1 else 0, 0
  {
    hide Absent, Width, Closed, FiniteKey, KeyWeight;
    if k in m.cache {
    } else if Fans(e, k) {
      var r := |e.lists| + |m.out|;
      AbsentDecreases(m, k, r, m.out + [[]], known);
      var m1 := Memo(m.cache[k := r], m.out + [[]]);
      FillIsNaive(e, k, r, 0, m1, known, open + {k});
      var res := Fill(e, k, r, 0, m1, known);
      if res.Ok? {
        assert Succeeds(e, k);
        forall q | q in res.value.1.cache && q !in open ensures Succeeds(e, q) {
        }
      }
    } else if k.matrix {
      SameWeight(e, k);
      ApplyIsNaive(e, Key(k.x, k.y, false), m, known, open);
    }
  }

  lemma {:induction false} FillIsNaive(e: Env, k: Key, r: nat, i: nat, m: Memo, known: set<Identity>, open: set<Key>)
    requires Closed(e, known) && k.x in known && k.y in known && FiniteKey(e, k) && Fans(e, k)
    requires (forall q :: q in m.cache && q !in open ==> Succeeds(e, q))
    requires (forall q :: q in open ==> KeyWeight(e, k) <= KeyWeight(e, q))
    ensures
      var res := Fill(e, k, r, i, m, known);
      && (res.Err? ==> NaiveItems(e, k, i) == Err(res.error))
      && (res.Ok? ==> NaiveItems(e, k, i).Ok? && forall q :: q in res.value.1.cache && q !in open ==> Succeeds(e, q))
    decreases Absent(m, known), 2, if i <= Width(e, k) then Width(e, k) - i else 0
  {
    hide Absent, Closed, Fans, FiniteKey, KeyWeight, Succeeds;
    if i < Width(e, k) {
      ChildKnown(e, k.x, k.matrix, i, known);
      ChildKnown(e, k.y, k.matrix, i, known);
      ChildWeight(e, k, i);
      var item := Apply(e, ChildKey(e, k, i), m, known);
      ApplyIsNaive(e, ChildKey(e, k, i), m, known, open);
      if item.Ok? {
        SucceedsIs(e, ChildKey(e, k, i));
        var next := Push(e, item.value.1, r, item.value.0);
        AbsentMonotone(m, next, known);
        FillIsNaive(e, k, r, i + 1, next, known, open);
      }
    }
  }

  lemma SucceedsIs(e: Env, k: Key)
    requires Succeeds(e, k)
    ensures FiniteKey(e, k) && Naive(e, k).Ok?
  {
  }

  // ----- the plain definition on trees -----

  predicate Splits(t: L.Tree, matrix: bool) {
    t.Node? && (matrix ==> t.items != [] && t.items[0].Node?)
  }

  function Part(t: L.Tree, matrix: bool, i: nat): L.Tree {
    if Splits(t, matrix) && i < |t.items| then t.items[i] else t
  }

  function Span(t: L.Tree, u: L.Tree, matrix: bool): nat {
    var m, n := if t.Node? then |t.items| else 0, if u.Node? then |u.items| else 0;
    if Splits(t, matrix) && Splits(u, matrix) then if m < n then m else n else if Splits(t, matrix) then m else n
  }

  lemma PartLower(t: L.Tree, matrix: bool, i: nat)
    requires Splits(t, matrix) ==> i < |t.items|
    ensures L.Height(Part(t, matrix, i)) <= L.Height(t)
    ensures Splits(t, matrix) ==> L.Height(Part(t, matrix, i)) < L.Height(t)
  {
    if Splits(t, matrix) {
      L.ItemHeight(t.items, i);
    }
  }

  /** What an operator does to two trees: item by item where they split, and by its scalar form at the
      leaves; in matrix mode only lists that begin with a list split, and then it falls back to plain mode. */
  function Plain(w: World, op: BinaryOp, t: L.Tree, u: L.Tree, matrix: bool): Result<Tree, Error>
    decreases L.Height(t) + L.Height(u), matrix, 1, 0
  {
    if Splits(t, matrix) || Splits(u, matrix) then
      var items := PlainItems(w, op, t, u, matrix, 0);
      if items.Err? then Err(items.error) else Ok(Node(items.value))
    else if matrix then Plain(w, op, t, u, false)
    else
      var s := Scalar2(w, op, t.v, u.v);
      if s.Err? then Err(s.error) else Ok(Leaf(s.value))
  }

  function PlainItems(w: World, op: BinaryOp, t: L.Tree, u: L.Tree, matrix: bool, i: nat): Result<seq<Tree>, Error>
    requires Splits(t, matrix) || Splits(u, matrix)
    decreases L.Height(t) + L.Height(u), false, 0, if i <= Span(t, u, matrix) then Span(t, u, matrix) - i else 0
  {
    if i >= Span(t, u, matrix) then Ok([])
    else
      PartLower(t, matrix, i);
      PartLower(u, matrix, i);
      var first := Plain(w, op, Part(t, matrix, i), Part(u, matrix, i), matrix);
      if first.Err? then Err(first.error)
      else
        var rest := PlainItems(w, op, t, u, matrix, i + 1);
        if rest.Err? then Err(rest.error) else Ok([first.value] + rest.value)
  }

  /** `t` is what an identity stands for, written out. */
  ghost predicate WritesOut(e: Env, x: Identity, t: L.Tree) {
    L.Unfolds(e.lists, Denote(e, x), t) && (x.OfList? <==> t.Node?)
  }

  lemma PartsWriteOut(e: Env, x: Identity, t: L.Tree, matrix: bool, i: nat)
    requires WritesOut(e, x, t)
    ensures Opens(e, x, matrix) == Splits(t, matrix)
    ensures x.OfList? ==> |Items(e.lists, x.id)| == |t.items|
    ensures Opens(e, x, matrix) ==> i < |t.items| ==> WritesOut(e, Child(e, x, matrix, i), Part(t, matrix, i))
    ensures !Opens(e, x, matrix) ==> WritesOut(e, Child(e, x, matrix, i), Part(t, matrix, i))
  {
    if x.OfList? {
      if t.items != [] {
        assert L.Unfolds(e.lists, Items(e.lists, x.id)[0], t.items[0]);
      }
      if i < |t.items| {
        assert L.Unfolds(e.lists, Items(e.lists, x.id)[i], t.items[i]);
      }
    }
  }

  lemma {:induction false} NaiveIsPlain(e: Env, k: Key, t: L.Tree, u: L.Tree)
    requires FiniteKey(e, k) && WritesOut(e, k.x, t) && WritesOut(e, k.y, u)
    ensures Naive(e, k) == Plain(e.w, e.op, t, u, k.matrix)
    decreases KeyWeight(e, k), k.matrix, 1, 0
  {
    hide FiniteKey, KeyWeight, WritesOut, Opens, Splits;
    PartsWriteOut(e, k.x, t, k.matrix, 0);
    PartsWriteOut(e, k.y, u, k.matrix, 0);
    if Fans(e, k) {
      NaiveItemsArePlain(e, k, t, u, 0);
    } else if k.matrix {
      SameWeight(e, k);
      NaiveIsPlain(e, Key(k.x, k.y, false), t, u);
    } else {
      LeafValue(e, k.x, t);
      LeafValue(e, k.y, u);
    }
  }

  lemma LeafValue(e: Env, x: Identity, t: L.Tree)
    requires WritesOut(e, x, t) && !Opens(e, x, false)
    ensures t.Leaf? && t.v == Denote(e, x)
  {
  }

  lemma {:induction false} NaiveItemsArePlain(e: Env, k: Key, t: L.Tree, u: L.Tree, i: nat)
    requires FiniteKey(e, k) && WritesOut(e, k.x, t) && WritesOut(e, k.y, u) && Fans(e, k)
    requires Splits(t, k.matrix) || Splits(u, k.matrix)
    ensures NaiveItems(e, k, i) == PlainItems(e.w, e.op, t, u, k.matrix, i)
    decreases KeyWeight(e, k), false, 0, if i <= Width(e, k) then Width(e, k) - i else 0
  {
    hide FiniteKey, KeyWeight, WritesOut, Naive, Plain;
    PartsWriteOut(e, k.x, t, k.matrix, i);
    PartsWriteOut(e, k.y, u, k.matrix, i);
    SpanIsWidth(e, k, t, u);
    if i < Width(e, k) {
      WidthBound(e, k, i);
      ChildWeight(e, k, i);
      NaiveIsPlain(e, ChildKey(e, k, i), Part(t, k.matrix, i), Part(u, k.matrix, i));
      NaiveItemsArePlain(e, k, t, u, i + 1);
    }
  }

  lemma SpanIsWidth(e: Env, k: Key, t: L.Tree, u: L.Tree)
    requires WritesOut(e, k.x, t) && WritesOut(e, k.y, u)
    ensures Width(e, k) == Span(t, u, k.matrix)
  {
    hide Opens, Splits, WritesOut;
    PartsWriteOut(e, k.x, t, k.matrix, 0);
    PartsWriteOut(e, k.y, u, k.matrix, 0);
    KindOf(e, k.x, t);
    KindOf(e, k.y, u);
  }

  lemma KindOf(e: Env, x: Identity, t: L.Tree)
    requires WritesOut(e, x, t)
    ensures x.OfList? <==> t.Node?
  {
  }

  /** On operands that reach no cycle the memo changes nothing, whatever other lists there are: the operator
      succeeds exactly when the plain definition on the operands' trees does, with the result it defines, and
      otherwise fails with its error. */
  lemma BinaryIsNaive(w: World, op: BinaryOp, a: Value, b: Value, lists: seq<seq<Value>>)
    requires !L.ReachesCycle(lists, a) && !L.ReachesCycle(lists, b)
    ensures L.Flat(lists, a, {}).Ok? && L.Flat(lists, b, {}).Ok?
    ensures
      var r, t := BinaryOn(w, op, a, b, lists), Plain(w, op, L.Unfold(lists, a, {}), L.Unfold(lists, b, {}), true);
      && (r.Ok? <==> t.Ok?)
      && (r.Err? ==> t == Err(r.error))
      && (r.Ok? ==> Spells(r.value.1, r.value.0, t.value))
  {
    hide Apply, Naive, Plain, L.Flat, L.ReachesCycle;
    L.FlattenCyclic(lists, a);
    L.FlattenCyclic(lists, b);
    var e := Env(w, op, lists, a, b);
    var k := RootKey(e);
    RootWritesOut(e);
    assert Settled(e, Memo(map[], []), {}, KeyWeight(e, k));
    ApplyIsNaive(e, k, Memo(map[], []), Known(e), {});
    NaiveIsPlain(e, k, L.Unfold(lists, a, {}), L.Unfold(lists, b, {}));
    var r := BinaryOn(w, op, a, b, lists);
    if r.Ok? {
      var cache := BinaryIsElementwise(w, op, a, b, lists);
      ImageSpells(e, cache, r.value.1, k, r.value.0);
    }
  }

  lemma RootWritesOut(e: Env)
    requires L.Flat(e.lists, e.a, {}).Ok? && L.Flat(e.lists, e.b, {}).Ok?
    ensures var k := RootKey(e);
            && FiniteKey(e, k) && WritesOut(e, k.x, L.Unfold(e.lists, e.a, {}))
            && WritesOut(e, k.y, L.Unfold(e.lists, e.b, {})) && k.matrix
  {
    hide L.Flat;
    L.FlatIsFringe(e.lists, e.a, {});
    L.FlatIsFringe(e.lists, e.b, {});
  }

  // ----- the unary operators -----

  /** `v` is the right result for a value, given which lists the new ones are copies of. */
  ghost predicate Copies(w: World, op: UnaryOp, base: nat, origin: seq<nat>, v: Value, r: Value) {
    if v.List? then r.List? && base <= r.id < base + |origin| && origin[r.id - base] == v.id
    else
      var s := Scalar1(w, op, v);
      s.Ok? && r == FromScalar(s.value)
  }

  /** New list `j` holds the results for the items of its original so far. */
  ghost predicate Copying(w: World, op: UnaryOp, lists: seq<seq<Value>>, out: seq<seq<Value>>, origin: seq<nat>, j: nat)
    requires j < |out| == |origin|
  {
    var items := Items(lists, origin[j]);
    |out[j]| <= |items| && forall i :: 0 <= i < |out[j]| ==> Copies(w, op, |lists|, origin, items[i], out[j][i])
  }

  /** Lists that are not being filled are full, and those that are being filled lie on the path. */
  ghost predicate CopiesSound(w: World, op: UnaryOp, lists: seq<seq<Value>>, path: map<nat, nat>, out: seq<seq<Value>>,
                              origin: seq<nat>) {
    && |out| == |origin|
    && (forall id :: id in path ==> |lists| <= path[id] < |lists| + |out| && origin[path[id] - |lists|] == id)
    && (forall j :: 0 <= j < |out| ==> Copying(w, op, lists, out, origin, j))
    && (forall j :: 0 <= j < |out| && |lists| + j !in path.Values ==> |out[j]| == |Items(lists, origin[j])|)
  }

  /** New lists are added behind the old ones, of which only list `r` may change. */
  ghost predicate Extended(base: nat, out: seq<seq<Value>>, out': seq<seq<Value>>, origin: seq<nat>, origin': seq<nat>,
                           r: Option<nat>) {
    && |out| <= |out'| && origin <= origin'
    && forall j :: 0 <= j < |out| && r != Some(base + j) ==> out'[j] == out[j]
  }

  lemma CopiesGrow(w: World, op: UnaryOp, base: nat, origin: seq<nat>, origin': seq<nat>, v: Value, r: Value)
    requires Copies(w, op, base, origin, v, r) && origin <= origin'
    ensures Copies(w, op, base, origin', v, r)
  {
  }

  lemma MoreValues(path: map<nat, nat>, id: nat, r: nat)
    requires id !in path
    ensures forall x :: x in path.Values ==> x in path[id := r].Values
  {
    var more := path[id := r];
    forall x | x in path.Values ensures x in more.Values {
      var k :| k in path && path[k] == x;
      assert k in more && more[k] == x;
    }
  }

  /** A new, empty copy of list `id`. */
  lemma OpenCopy(w: World, op: UnaryOp, lists: seq<seq<Value>>, path: map<nat, nat>, out: seq<seq<Value>>,
                 origin: seq<nat>, id: nat)
    requires CopiesSound(w, op, lists, path, out, origin) && id !in path
    ensures var r := |lists| + |out|;
            CopiesSound(w, op, lists, path[id := r], out + [[]], origin + [id])
              && Extended(|lists|, out, out + [[]], origin, origin + [id], None)
  {
    hide Copies;
    var r := |lists| + |out|;
    var path', out', origin' := path[id := r], out + [[]], origin + [id];
    assert id in path' && path'[id] == r;
    MoreValues(path, id, r);
    forall j | 0 <= j < |out'| ensures Copying(w, op, lists, out', origin', j) {
      if j < |out| {
        assert Copying(w, op, lists, out, origin, j);
        forall i | 0 <= i < |out[j]| ensures Copies(w, op, |lists|, origin', Items(lists, origin[j])[i], out[j][i]) {
          CopiesGrow(w, op, |lists|, origin, origin', Items(lists, origin[j])[i], out[j][i]);
        }
      }
    }
    forall j | 0 <= j < |out'| && |lists| + j !in path'.Values ensures |out'[j]| == |Items(lists, origin'[j])| {
      if j < |out| {
        assert |lists| + j !in path.Values;
      }
    }
  }

  /** A copy that is full needs no place on the path. */
  lemma CloseCopy(w: World, op: UnaryOp, lists: seq<seq<Value>>, path: map<nat, nat>, id: nat, r: nat,
                  out: seq<seq<Value>>, origin: seq<nat>)
    requires id !in path && CopiesSound(w, op, lists, path[id := r], out, origin)
    requires |lists| <= r < |lists| + |out| && |out[r - |lists|]| == |Items(lists, id)|
    ensures CopiesSound(w, op, lists, path, out, origin)
  {
    hide Copying;
    var more := path[id := r];
    forall x | x in path ensures |lists| <= path[x] < |lists| + |out| && origin[path[x] - |lists|] == x {
      assert x in more;
    }
    assert id in more;
    forall j | 0 <= j < |out| && |lists| + j !in path.Values ensures |out[j]| == |Items(lists, origin[j])| {
      if |lists| + j != r {
        assert |lists| + j !in more.Values;
      }
    }
  }

  lemma CopyingOther(w: World, op: UnaryOp, lists: seq<seq<Value>>, out: seq<seq<Value>>, out': seq<seq<Value>>,
                     origin: seq<nat>, j: nat)
    requires j < |out| == |origin| == |out'| && out'[j] == out[j] && Copying(w, op, lists, out, origin, j)
    ensures Copying(w, op, lists, out', origin, j)
  {
    hide Copies, Items;
  }

  lemma CopyingMore(w: World, op: UnaryOp, lists: seq<seq<Value>>, out: seq<seq<Value>>, origin: seq<nat>, k: nat,
                    v: Value)
    requires k < |out| == |origin| && Copying(w, op, lists, out, origin, k) && |out[k]| < |Items(lists, origin[k])|
    requires Copies(w, op, |lists|, origin, Items(lists, origin[k])[|out[k]|], v)
    ensures Copying(w, op, lists, out[k := out[k] + [v]], origin, k)
  {
    hide Copies, Items;
  }

  /** One more item in the copy at the end of the path. */
  lemma PushCopy(w: World, op: UnaryOp, lists: seq<seq<Value>>, path: map<nat, nat>, out: seq<seq<Value>>,
                 origin: seq<nat>, id: nat, r: nat, v: Value)
    requires CopiesSound(w, op, lists, path, out, origin) && id in path && path[id] == r
    requires var n := |out[r - |lists|]|;
             n < |Items(lists, id)| && Copies(w, op, |lists|, origin, Items(lists, id)[n], v)
    ensures CopiesSound(w, op, lists, path, out[r - |lists| := out[r - |lists|] + [v]], origin)
  {
    hide Copies, Copying, Items;
    var k := r - |lists|;
    var out' := out[k := out[k] + [v]];
    assert r in path.Values;
    CopyingMore(w, op, lists, out, origin, k, v);
    forall j | 0 <= j < |out'| ensures Copying(w, op, lists, out', origin, j) {
      if j != k {
        CopyingOther(w, op, lists, out, out', origin, j);
      }
    }
  }

  lemma ExtendedTwice(base: nat, a: seq<seq<Value>>, b: seq<seq<Value>>, c: seq<seq<Value>>, x: seq<nat>, y: seq<nat>,
                      z: seq<nat>, r: nat)
    requires Extended(base, a, b, x, y, Some(r)) && Extended(base, b, c, y, z, Some(r))
    ensures Extended(base, a, c, x, z, Some(r))
    ensures r >= base + |a| ==> Extended(base, a, c, x, z, None)
  {
  }

  lemma ExtendedWider(base: nat, a: seq<seq<Value>>, b: seq<seq<Value>>, x: seq<nat>, y: seq<nat>, r: nat)
    requires Extended(base, a, b, x, y, None)
    ensures Extended(base, a, b, x, y, Some(r))
  {
  }

  lemma {:induction false} UnarySound(w: World, op: UnaryOp, lists: seq<seq<Value>>, v: Value, path: map<nat, nat>,
                                      out: seq<seq<Value>>, origin: seq<nat>, known: set<nat>)
      returns (origin': seq<nat>)
    requires ClosedLists(lists, known) && (v.List? ==> v.id in known) && CopiesSound(w, op, lists, path, out, origin)
    requires ApplyUnary(w, op, lists, v, path, out, known).Ok?
    ensures var r := ApplyUnary(w, op, lists, v, path, out, known).value;
            && CopiesSound(w, op, lists, path, r.1, origin') && Extended(|lists|, out, r.1, origin, origin', None)
            && Copies(w, op, |lists|, origin', v, r.0)
    decreases Unseen(known, path), 0
  {
    hide ClosedLists, CopiesSound, FillUnary, ApplyUnary, Unseen;
    UnaryCases(w, op, lists, v, path, out, known);
    if v.List? && v.id !in path {
      var r := |lists| + |out|;
      UnseenLess(known, path, v.id, r);
      OpenCopy(w, op, lists, path, out, origin, v.id);
      SoundSizes(w, op, lists, path, out, origin);
      origin' := FillUnarySound(w, op, lists, v.id, path[v.id := r], r, 0, out + [[]], origin + [v.id], known);
      var res := FillUnary(w, op, lists, v.id, path[v.id := r], r, 0, out + [[]], known).value;
      CloseCopy(w, op, lists, path, v.id, r, res.1, origin');
      ExtendedWider(|lists|, out, out + [[]], origin, origin + [v.id], r);
      ExtendedTwice(|lists|, out, out + [[]], res.1, origin, origin + [v.id], origin', r);
    } else {
      origin' := origin;
      PathCopies(w, op, lists, path, out, origin, v);
    }
  }

  lemma SoundSizes(w: World, op: UnaryOp, lists: seq<seq<Value>>, path: map<nat, nat>, out: seq<seq<Value>>,
                   origin: seq<nat>)
    requires CopiesSound(w, op, lists, path, out, origin)
    ensures |out| == |origin|
  {
  }

  lemma PathCopies(w: World, op: UnaryOp, lists: seq<seq<Value>>, path: map<nat, nat>, out: seq<seq<Value>>,
                   origin: seq<nat>, v: Value)
    requires CopiesSound(w, op, lists, path, out, origin)
    ensures v.List? && v.id in path ==> Copies(w, op, |lists|, origin, v, List(path[v.id]))
  {
  }

  lemma {:induction false} FillUnarySound(w: World, op: UnaryOp, lists: seq<seq<Value>>, id: nat, path: map<nat, nat>,
                                          r: nat, i: nat, out: seq<seq<Value>>, origin: seq<nat>, known: set<nat>)
      returns (origin': seq<nat>)
    requires ClosedLists(lists, known) && CopiesSound(w, op, lists, path, out, origin) && id in path && path[id] == r
    requires |lists| <= r < |lists| + |out| && |out[r - |lists|]| == i <= |Items(lists, id)|
    requires FillUnary(w, op, lists, id, path, r, i, out, known).Ok?
    ensures var res := FillUnary(w, op, lists, id, path, r, i, out, known).value;
            && CopiesSound(w, op, lists, path, res.1, origin')
            && Extended(|lists|, out, res.1, origin, origin', Some(r))
            && res.0 == List(r) && r < |lists| + |res.1| && |res.1[r - |lists|]| == |Items(lists, id)|
            && r - |lists| < |origin'| && origin'[r - |lists|] == id
    decreases Unseen(known, path), 1, if i <= |Items(lists, id)| then |Items(lists, id)| - i else 0
  {
    hide CopiesSound, Unseen, ApplyUnary, Copies;
    PathOrigin(w, op, lists, path, out, origin, id);
    if i >= |Items(lists, id)| {
      origin' := origin;
    } else {
      var v := Items(lists, id)[i];
      assert v == lists[id][i];
      var mid := UnarySound(w, op, lists, v, path, out, origin, known);
      var item := ApplyUnary(w, op, lists, v, path, out, known).value;
      var o := item.1;
      var next := o[r - |lists| := o[r - |lists|] + [item.0]];
      PathOrigin(w, op, lists, path, o, mid, id);
      PushCopy(w, op, lists, path, o, mid, id, r, item.0);
      origin' := FillUnarySound(w, op, lists, id, path, r, i + 1, next, mid, known);
      ExtendedWider(|lists|, out, o, origin, mid, r);
      ExtendedTwice(|lists|, out, o, next, origin, mid, mid, r);
      ExtendedTwice(|lists|, out, next, FillUnary(w, op, lists, id, path, r, i + 1, next, known).value.1, origin, mid,
                    origin', r);
    }
  }

  lemma PathOrigin(w: World, op: UnaryOp, lists: seq<seq<Value>>, path: map<nat, nat>, out: seq<seq<Value>>,
                   origin: seq<nat>, id: nat)
    requires CopiesSound(w, op, lists, path, out, origin) && id in path
    ensures |out| == |origin| && |lists| <= path[id] < |lists| + |out| && origin[path[id] - |lists|] == id
  {
  }

  /** On every finite heap, cyclic ones included, a unary operator gives a copy: every new list has an item
      for each item of its original, and each is the scalar result, or the copy of the list that stood there. */
  ghost predicate IsCopy(w: World, op: UnaryOp, lists: seq<seq<Value>>, all: seq<seq<Value>>, origin: seq<nat>,
                         v: Value, r: Value) {
    && lists <= all && |all| == |lists| + |origin|
    && Copies(w, op, |lists|, origin, v, r)
    && forall j :: 0 <= j < |origin| ==> CopyOf(w, op, lists, all, origin, j)
  }

  ghost predicate CopyOf(w: World, op: UnaryOp, lists: seq<seq<Value>>, all: seq<seq<Value>>, origin: seq<nat>, j: nat)
    requires j < |origin| && |all| == |lists| + |origin|
  {
    var items, copy := Items(lists, origin[j]), all[|lists| + j];
    |copy| == |items| && forall i :: 0 <= i < |items| ==> Copies(w, op, |lists|, origin, items[i], copy[i])
  }

  lemma UnaryIsElementwise(w: World, op: UnaryOp, v: Value, lists: seq<seq<Value>>) returns (origin: seq<nat>)
    requires UnaryOn(w, op, v, lists).Ok?
    ensures var r := UnaryOn(w, op, v, lists).value; IsCopy(w, op, lists, r.1, origin, v, r.0)
  {
    hide ApplyUnary, Copies;
    assert CopiesSound(w, op, lists, map[], [], []);
    origin := UnarySound(w, op, lists, v, map[], [], [], KnownLists(v, lists));
    var out := ApplyUnary(w, op, lists, v, map[], [], KnownLists(v, lists)).value.1;
    var all := lists + out;
    forall j | 0 <= j < |origin| ensures CopyOf(w, op, lists, all, origin, j) {
      assert Copying(w, op, lists, out, origin, j);
      assert |out[j]| == |Items(lists, origin[j])|;
    }
  }

  /** What a unary operator does to a tree. */
  function Plain1(w: World, op: UnaryOp, t: L.Tree): Result<Tree, Error>
    decreases t, 0
  {
    match t
    case Leaf(v) =>
      var s := Scalar1(w, op, v);
      if s.Err? then Err(s.error) else Ok(Leaf(s.value))
    case Node(ts) =>
      var items := Plain1All(w, op, ts);
      if items.Err? then Err(items.error) else Ok(Node(items.value))
  }

  function Plain1All(w: World, op: UnaryOp, ts: seq<L.Tree>): (r: Result<seq<Tree>, Error>)
    ensures r.Ok? ==> |r.value| == |ts|
    decreases ts, |ts|
  {
    if ts == [] then Ok([])
    else
      var first := Plain1(w, op, ts[0]);
      if first.Err? then Err(first.error)
      else
        var rest := Plain1All(w, op, ts[1..]);
        if rest.Err? then Err(rest.error) else Ok([first.value] + rest.value)
  }

  lemma {:induction false} CopySpells(w: World, op: UnaryOp, lists: seq<seq<Value>>, all: seq<seq<Value>>,
                                      origin: seq<nat>, v: Value, r: Value, t: L.Tree)
    requires IsCopy(w, op, lists, all, origin, v, r) && L.Unfolds(lists, v, t)
    ensures Plain1(w, op, t).Ok? && Spells(all, r, Plain1(w, op, t).value)
    decreases t, 0
  {
    hide Scalar1, IsCopy;
    if t.Node? {
      ItemsCopied(w, op, lists, all, origin, v, r);
      CopiesSpell(w, op, lists, all, origin, Items(lists, v.id), all[r.id], t.items);
    } else {
      LeafCopied(w, op, lists, all, origin, v, r);
    }
  }

  lemma ItemsCopied(w: World, op: UnaryOp, lists: seq<seq<Value>>, all: seq<seq<Value>>, origin: seq<nat>, v: Value,
                    r: Value)
    requires IsCopy(w, op, lists, all, origin, v, r) && v.List?
    ensures r.List? && r.id < |all| && |all[r.id]| == |Items(lists, v.id)|
    ensures forall i :: 0 <= i < |all[r.id]| ==>
              IsCopy(w, op, lists, all, origin, Items(lists, v.id)[i], all[r.id][i])
  {
    hide Scalar1, Items;
    assert CopyOf(w, op, lists, all, origin, r.id - |lists|);
  }

  lemma LeafCopied(w: World, op: UnaryOp, lists: seq<seq<Value>>, all: seq<seq<Value>>, origin: seq<nat>, v: Value,
                   r: Value)
    requires IsCopy(w, op, lists, all, origin, v, r) && !v.List?
    ensures var s := Scalar1(w, op, v); s.Ok? && r == FromScalar(s.value)
  {
    hide Scalar1;
  }

  lemma {:induction false} CopiesSpell(w: World, op: UnaryOp, lists: seq<seq<Value>>, all: seq<seq<Value>>,
                                       origin: seq<nat>, vs: seq<Value>, rs: seq<Value>, ts: seq<L.Tree>)
    requires |vs| == |rs| == |ts|
    requires forall i :: 0 <= i < |vs| ==>
               IsCopy(w, op, lists, all, origin, vs[i], rs[i]) && L.Unfolds(lists, vs[i], ts[i])
    ensures var o := Plain1All(w, op, ts); o.Ok? && forall i :: 0 <= i < |rs| ==> Spells(all, rs[i], o.value[i])
    decreases ts, |ts|
  {
    hide IsCopy, Spells, Plain1;
    if ts != [] {
      CopySpells(w, op, lists, all, origin, vs[0], rs[0], ts[0]);
      CopiesSpell(w, op, lists, all, origin, vs[1..], rs[1..], ts[1..]);
      var o := Plain1All(w, op, ts);
      forall i | 0 <= i < |rs| ensures Spells(all, rs[i], o.value[i]) {
        if i > 0 {
          assert rs[i] == rs[1..][i - 1];
        }
      }
    }
  }

  /** Lists on the path are above the one at hand. */
  ghost predicate Above(lists: seq<seq<Value>>, path: map<nat, nat>, height: nat) {
    forall id :: id in path ==> Finite(lists, id) && height < Rank(lists, id)
  }

  lemma {:induction false} UnaryAgrees(w: World, op: UnaryOp, lists: seq<seq<Value>>, v: Value, path: map<nat, nat>,
                                       out: seq<seq<Value>>, known: set<nat>, t: L.Tree)
    requires ClosedLists(lists, known) && (v.List? ==> v.id in known) && L.Unfolds(lists, v, t)
             && Above(lists, path, L.Height(t))
    ensures var r := ApplyUnary(w, op, lists, v, path, out, known);
            if r.Ok? then Plain1(w, op, t).Ok? else Plain1(w, op, t) == Err(r.error)
    decreases t, 0
  {
    hide ClosedLists, ApplyUnary, FillUnary, Scalar1, L.Height, Finite, Rank, Plain1All;
    UnaryCases(w, op, lists, v, path, out, known);
    if t.Node? {
      TreeRank(lists, v, t);
      if v.id !in path {
        var r := |lists| + |out|;
        forall i | 0 <= i < |t.items|
          ensures L.Unfolds(lists, Items(lists, v.id)[i], t.items[i]) && L.Height(t.items[i]) < L.Height(t)
        {
          TreeItem(lists, v.id, t, i);
        }
        FillUnaryAgrees(w, op, lists, v.id, path[v.id := r], r, 0, out + [[]], known, t.items, L.Height(t));
        assert t.items[0..] == t.items;
      }
    }
  }

  lemma TreeRank(lists: seq<seq<Value>>, v: Value, t: L.Tree)
    requires L.Unfolds(lists, v, t) && v.List?
    ensures Finite(lists, v.id) && Rank(lists, v.id) == L.Height(t)
  {
    hide L.Flat, L.Unfold, L.Height;
    L.TreeIsFlat(lists, v, t);
  }

  lemma {:induction false} FillUnaryAgrees(w: World, op: UnaryOp, lists: seq<seq<Value>>, id: nat, path: map<nat, nat>,
                                           r: nat, i: nat, out: seq<seq<Value>>, known: set<nat>, ts: seq<L.Tree>,
                                           height: nat)
    requires ClosedLists(lists, known) && |ts| == |Items(lists, id)| && i <= |ts|
    requires forall j :: 0 <= j < |ts| ==> L.Unfolds(lists, Items(lists, id)[j], ts[j]) && L.Height(ts[j]) < height
    requires forall q :: q in path ==> Finite(lists, q) && height <= Rank(lists, q)
    ensures var o := FillUnary(w, op, lists, id, path, r, i, out, known);
            if o.Ok? then Plain1All(w, op, ts[i..]).Ok? else Plain1All(w, op, ts[i..]) == Err(o.error)
    decreases ts, |ts| - i
  {
    hide ApplyUnary, L.Height, L.Unfolds, Finite, Rank, Plain1;
    if i < |ts| {
      var v := Items(lists, id)[i];
      assert v == lists[id][i];
      assert ts[i..][0] == ts[i] && ts[i..][1..] == ts[i + 1..];
      UnaryAgrees(w, op, lists, v, path, out, known, ts[i]);
      var item := ApplyUnary(w, op, lists, v, path, out, known);
      if item.Ok? {
        var o := item.value.1;
        var next := if |lists| <= r < |lists| + |o| then o[r - |lists| := o[r - |lists|] + [item.value.0]] else o;
        FillUnaryAgrees(w, op, lists, id, path, r, i + 1, next, known, ts, height);
      }
    }
  }

  /** On a value that reaches no cycle, a unary operator succeeds exactly when the plain definition on the
      tree of the value does, with the result it defines, and otherwise fails with its error. */
  lemma UnaryIsPlain(w: World, op: UnaryOp, v: Value, lists: seq<seq<Value>>)
    requires !L.ReachesCycle(lists, v)
    ensures L.Flat(lists, v, {}).Ok?
    ensures
      var r, t := UnaryOn(w, op, v, lists), Plain1(w, op, L.Unfold(lists, v, {}));
      && (r.Ok? <==> t.Ok?)
      && (r.Err? ==> t == Err(r.error))
      && (r.Ok? ==> Spells(r.value.1, r.value.0, t.value))
  {
    hide L.Flat, L.ReachesCycle, L.Height, ApplyUnary, Plain1, Finite, Rank;
    L.FlattenCyclic(lists, v);
    L.FlatIsFringe(lists, v, {});
    var t := L.Unfold(lists, v, {});
    UnaryAgrees(w, op, lists, v, map[], [], KnownLists(v, lists), t);
    var r := UnaryOn(w, op, v, lists);
    if r.Ok? {
      var origin := UnaryIsElementwise(w, op, v, lists);
      CopySpells(w, op, lists, r.value.1, origin, v, r.value.0, t);
    }
  }
}
