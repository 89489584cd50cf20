/** Generational keys: a dense store whose keys are never valid twice. */
module SlotMaps {
  import opened Common
  import opened FiniteSets

  datatype Key = Key(slot: nat, generation: nat)

  datatype Entry<T> = Entry(value: Option<T>, generation: nat)

  /** The whole content of a slot map. */
  datatype Slots<T> = Slots(slots: seq<Entry<T>>, empty: seq<nat>, count: nat)

  ghost predicate Distinct(s: seq<nat>) {
    forall i, j :: 0 <= i < j < |s| ==> s[i] != s[j]
  }

  /** Every empty slot is listed once, and the values are counted. */
  ghost predicate ValidSlots<T>(m: Slots<T>) {
    && (forall i :: 0 <= i < |m.slots| ==> (m.slots[i].value.None? <==> i in m.empty))
    && (forall i :: 0 <= i < |m.empty| ==> m.empty[i] < |m.slots|)
    && Distinct(m.empty)
    && m.count + |m.empty| == |m.slots|
  }

  function Fresh<T>(): Slots<T> {
    Slots([], [], 0)
  }

  function Get<T>(m: Slots<T>, k: Key): Option<T> {
    if k.slot < |m.slots| && m.slots[k.slot].generation == k.generation then m.slots[k.slot].value else None
  }

  /** The slot a new value goes to: the last one emptied, or a new one. */
  function Inserted<T>(m: Slots<T>, v: T): (Slots<T>, Key)
    requires ValidSlots(m)
  {
    if m.empty != [] then
      var i := m.empty[|m.empty| - 1];
      var g := m.slots[i].generation;
      (Slots(m.slots[i := Entry(Some(v), g)], m.empty[..|m.empty| - 1], m.count + 1), Key(i, g))
    else
      (Slots(m.slots + [Entry(Some(v), 0)], [], m.count + 1), Key(|m.slots|, 0))
  }

  /** Emptying a slot ends its generation. */
  function Removed<T>(m: Slots<T>, k: Key): (Slots<T>, Option<T>)
    requires ValidSlots(m)
  {
    var r := Get(m, k);
    if r.None? then (m, None)
    else
      assert Occupied(m, k.slot);
      (Slots(m.slots[k.slot := Entry(None, k.generation + 1)], m.empty + [k.slot], m.count - 1), r)
  }

  predicate Occupied<T>(m: Slots<T>, i: nat)
    requires ValidSlots(m)
    ensures Occupied(m, i) ==> m.count > 0
  {
    if i < |m.slots| && m.slots[i].value.Some? then
      SomeLeft(m, i);
      true
    else false
  }

  lemma SomeLeft<T>(m: Slots<T>, i: nat)
    requires ValidSlots(m) && i < |m.slots| && m.slots[i].value.Some?
    ensures m.count > 0
  {
    if |m.empty| == |m.slots| {
      AllListed(m.empty, |m.slots|);
    }
  }

  /** Distinct numbers below `n`, `n` of them, are all of them. */
  lemma AllListed(s: seq<nat>, n: nat)
    requires Distinct(s) && |s| >= n && forall i :: 0 <= i < |s| ==> s[i] < n
    ensures forall i :: 0 <= i < n ==> i in s
  {
    hide *;
    var here := Elements(s);
    if x :| 0 <= x < n && x !in s {
      assert here <= UpTo(n) - {x};
      SubsetSize(here, UpTo(n) - {x});
    }
  }

  /** Distinct numbers below `n` are at most `n`. */
  lemma AtMost(s: seq<nat>, n: nat)
    requires Distinct(s) && forall i :: 0 <= i < |s| ==> s[i] < n
    ensures |s| <= n
  {
    assert Elements(s) <= UpTo(n);
    SubsetSize(Elements(s), UpTo(n));
  }

  /** If every number below `n` is listed, the list is at least that long. */
  lemma AtLeast(s: seq<nat>, n: nat)
    requires forall i :: 0 <= i < n ==> i in s
    ensures |s| >= n
  {
    assert UpTo(n) <= Elements(s);
    SubsetSize(UpTo(n), Elements(s));
  }

  ghost function Elements(s: seq<nat>): (r: set<nat>)
    ensures |r| <= |s| && (Distinct(s) ==> |r| == |s|) && forall x :: x in r <==> x in s
  {
    if s == [] then {}
    else
      var t := s[..|s| - 1];
      assert s == t + [s[|s| - 1]];
      Elements(t) + {s[|s| - 1]}
  }

  /** Clearing empties the slots in order. */
  function ClearFrom<T>(m: Slots<T>, i: nat): Slots<T>
    decreases |m.slots| - i
  {
    if i >= |m.slots| then m.(count := 0)
    else if m.slots[i].value.None? then ClearFrom(m, i + 1)
    else ClearFrom(Slots(m.slots[i := Entry(None, m.slots[i].generation + 1)], m.empty + [i], m.count), i + 1)
  }

  function Cleared<T>(m: Slots<T>): Slots<T> {
    ClearFrom(m, 0)
  }

  // ----- the finite map a slot map stands for -----

  ghost predicate Live<T>(m: Slots<T>, k: Key) {
    Get(m, k).Some?
  }

  /** Keys handed out so far: those of earlier generations of a slot, and the current one if in use. */
  ghost predicate Issued<T>(m: Slots<T>, k: Key) {
    && k.slot < |m.slots|
    && (k.generation < m.slots[k.slot].generation
        || (k.generation == m.slots[k.slot].generation && m.slots[k.slot].value.Some?))
  }

  /** A new key was never handed out before; the value is found under it, and nothing else changes. */
  lemma InsertRefines<T>(m: Slots<T>, v: T)
    requires ValidSlots(m)
    ensures var (m', k) := Inserted(m, v);
            && ValidSlots(m') && !Issued(m, k) && !Live(m, k)
            && (forall j :: Get(m', j) == if j == k then Some(v) else Get(m, j))
            && (forall j :: Issued(m', j) <==> j == k || Issued(m, j))
  {
    var (m', k) := Inserted(m, v);
    if m.empty != [] {
      assert m.empty[|m.empty| - 1] in m.empty;
      forall i | 0 <= i < |m'.slots| ensures m'.slots[i].value.None? <==> i in m'.empty {
        if i != k.slot && m.slots[i].value.None? {
          var j :| 0 <= j < |m.empty| && m.empty[j] == i;
          assert m'.empty[j] == i;
        }
      }
    }
  }

  /** A removed key is gone for good; the others are untouched. */
  lemma RemoveRefines<T>(m: Slots<T>, k: Key)
    requires ValidSlots(m)
    ensures var (m', r) := Removed(m, k);
            && ValidSlots(m') && r == Get(m, k)
            && (forall j :: Get(m', j) == if j == k then None else Get(m, j))
            && (forall j :: Issued(m', j) <==> Issued(m, j))
  {
    var (m', r) := Removed(m, k);
    if r.Some? {
      var n := |m.empty|;
      assert m'.empty[n] == k.slot;
      forall i | 0 <= i < |m'.slots| ensures m'.slots[i].value.None? <==> i in m'.empty {
        if i != k.slot && i in m.empty {
          var j :| 0 <= j < n && m.empty[j] == i;
          assert m'.empty[j] == i;
        }
      }
      assert k.slot !in m.empty;
    }
  }

  lemma {:induction false} ClearFromRefines<T>(m: Slots<T>, i: nat)
    requires i <= |m.slots| && (forall j :: 0 <= j < i ==> m.slots[j].value.None?)
    requires |m.empty| <= |m.slots| && ValidSlots(m.(count := |m.slots| - |m.empty|))
    ensures var m' := ClearFrom(m, i);
            && ValidSlots(m') && (forall k :: Get(m', k).None?) && (forall k :: Issued(m', k) <==> Issued(m, k))
    decreases |m.slots| - i
  {
    if i < |m.slots| {
      if m.slots[i].value.None? {
        ClearFromRefines(m, i + 1);
      } else {
        var m1 := Slots(m.slots[i := Entry(None, m.slots[i].generation + 1)], m.empty + [i], m.count);
        var n := |m.empty|;
        assert m1.empty[n] == i;
        assert i !in m.empty;
        forall j | 0 <= j < |m1.slots| ensures m1.slots[j].value.None? <==> j in m1.empty {
          if j != i && j in m.empty {
            var h :| 0 <= h < n && m.empty[h] == j;
            assert m1.empty[h] == j;
          }
        }
        AtMost(m1.empty, |m1.slots|);
        ClearFromRefines(m1, i + 1);
      }
    } else {
      AtLeast(m.empty, |m.slots|);
    }
  }

  lemma ClearRefines<T>(m: Slots<T>)
    requires ValidSlots(m)
    ensures var m' := Cleared(m);
            && ValidSlots(m') && (forall k :: Get(m', k).None?) && (forall k :: Issued(m', k) <==> Issued(m, k))
  {
    assert m.(count := |m.slots| - |m.empty|) == m;
    ClearFromRefines(m, 0);
  }

  // ----- whole histories -----

  datatype Op<T> = DoInsert(v: T) | DoRemove(k: Key) | DoClear

  function Apply<T>(m: Slots<T>, op: Op<T>): Slots<T>
    requires ValidSlots(m)
  {
    match op
    case DoInsert(v) => Inserted(m, v).0
    case DoRemove(k) => Removed(m, k).0
    case DoClear => Cleared(m)
  }

  lemma ApplyValid<T>(m: Slots<T>, op: Op<T>)
    requires ValidSlots(m)
    ensures ValidSlots(Apply(m, op)) && forall k :: Issued(m, k) ==> Issued(Apply(m, op), k)
    ensures forall k :: Issued(m, k) && !Live(m, k) ==> !Live(Apply(m, op), k)
  {
    match op
    case DoInsert(v) => InsertRefines(m, v);
    case DoRemove(k) => RemoveRefines(m, k);
    case DoClear => ClearRefines(m);
  }

  ghost function History<T>(m: Slots<T>, ops: seq<Op<T>>): (r: Slots<T>)
    requires ValidSlots(m)
    ensures ValidSlots(r)
    decreases |ops|
  {
    if ops == [] then m
    else
      ApplyValid(m, ops[0]);
      History(Apply(m, ops[0]), ops[1..])
  }

  /** Over every history: a key that has been handed out and no longer resolves never resolves again, and
      it is never handed out again. */
  lemma {:induction false} StaleForever<T>(m: Slots<T>, ops: seq<Op<T>>, k: Key, v: T)
    requires ValidSlots(m) && Issued(m, k) && !Live(m, k)
    ensures var r := History(m, ops); Issued(r, k) && !Live(r, k) && Inserted(r, v).1 != k
    decreases |ops|
  {
    if ops == [] {
      InsertRefines(m, v);
    } else {
      ApplyValid(m, ops[0]);
      StaleForever(Apply(m, ops[0]), ops[1..], k, v);
    }
  }

  /** What a history amounts to on a plain map, given the keys it was handed. */
  ghost function Ideal<T>(m: Slots<T>, f: map<Key, T>, ops: seq<Op<T>>): map<Key, T>
    requires ValidSlots(m)
    decreases |ops|
  {
    if ops == [] then f
    else
      ApplyValid(m, ops[0]);
      var f' := match ops[0]
        case DoInsert(v) => f[Inserted(m, v).1 := v]
        case DoRemove(k) => f - {k}
        case DoClear => map[];
      Ideal(Apply(m, ops[0]), f', ops[1..])
  }

  ghost predicate Spells<T(!new)>(m: Slots<T>, f: map<Key, T>) {
    forall k :: Get(m, k) == if k in f then Some(f[k]) else None
  }

  /** A slot map is a finite map from keys to values, under every sequence of operations. */
  lemma {:induction false} IsAMap<T(!new)>(m: Slots<T>, f: map<Key, T>, ops: seq<Op<T>>)
    requires ValidSlots(m) && Spells(m, f)
    ensures Spells(History(m, ops), Ideal(m, f, ops))
    decreases |ops|
  {
    if ops != [] {
      ApplyValid(m, ops[0]);
      var m' := Apply(m, ops[0]);
      match ops[0] {
        case DoInsert(v) =>
          InsertRefines(m, v);
          IsAMap(m', f[Inserted(m, v).1 := v], ops[1..]);
        case DoRemove(k) =>
          RemoveRefines(m, k);
          IsAMap(m', f - {k}, ops[1..]);
        case DoClear =>
          ClearRefines(m);
          IsAMap(m', map[], ops[1..]);
      }
    }
  }

  // ----- the store itself -----

  class SlotMap<T> {
    var slots: seq<Entry<T>>
    var emptySlots: seq<nat>
    var numValues: nat

    ghost function Content(): Slots<T>
      reads this
    {
      Slots(slots, emptySlots, numValues)
    }

    ghost predicate Valid()
      reads this
    {
      ValidSlots(Content())
    }

    constructor ()
      ensures Valid() && Content() == Fresh()
    {
      slots, emptySlots, numValues := [], [], 0;
    }

    method Insert(value: T) returns (key: Key)
      requires Valid()
      modifies this
      ensures Valid() && (Content(), key) == Inserted(old(Content()), value)
    {
      InsertRefines(Content(), value);
      numValues := numValues + 1;
      if emptySlots != [] {
        var slot := emptySlots[|emptySlots| - 1];
        emptySlots := emptySlots[..|emptySlots| - 1];
        slots := slots[slot := slots[slot].(value := Some(value))];
        key := Key(slot, slots[slot].generation);
      } else {
        var slot := |slots|;
        slots := slots + [Entry(Some(value), 0)];
        key := Key(slot, 0);
      }
    }

    method Remove(key: Key) returns (res: Option<T>)
      requires Valid()
      modifies this
      ensures Valid() && (Content(), res) == Removed(old(Content()), key)
    {
      RemoveRefines(Content(), key);
      if key.slot >= |slots| {
        return None;
      }
      var slot := slots[key.slot];
      res := if slot.generation == key.generation then slot.value else None;
      if res.Some? {
        assert Occupied(Content(), key.slot);
        slots := slots[key.slot := Entry(None, slot.generation + 1)];
        numValues := numValues - 1;
        emptySlots := emptySlots + [key.slot];
      }
    }

    method Clear()
      requires Valid()
      modifies this
      ensures Valid() && Content() == Cleared(old(Content()))
    {
      ghost var before := Content();
      ClearRefines(before);
      for i := 0 to |slots|
        invariant |slots| == |before.slots|
        invariant ClearFrom(Content(), i) == Cleared(before)
      {
        if slots[i].value.Some? {
          slots := slots[i := Entry(None, slots[i].generation + 1)];
          emptySlots := emptySlots + [i];
        }
      }
      numValues := 0;
    }

    method Lookup(key: Key) returns (res: Option<T>)
      ensures res == Get(Content(), key)
    {
      if key.slot >= |slots| {
        return None;
      }
      res := if slots[key.slot].generation == key.generation then slots[key.slot].value else None;
    }

    /** Replaces the value a key resolves to, as writing through a mutable reference does. */
    method Update(key: Key, value: T)
      requires Valid() && Live(Content(), key)
      modifies this`slots
      ensures Valid() && Content() == Put(old(Content()), key, value)
    {
      PutRefines(Content(), key, value);
      slots := slots[key.slot := slots[key.slot].(value := Some(value))];
    }
  }

  function Put<T>(m: Slots<T>, k: Key, v: T): Slots<T>
    requires Get(m, k).Some?
  {
    m.(slots := m.slots[k.slot := m.slots[k.slot].(value := Some(v))])
  }

  lemma PutRefines<T>(m: Slots<T>, k: Key, v: T)
    requires ValidSlots(m) && Live(m, k)
    ensures var m' := Put(m, k, v);
            && ValidSlots(m') && (forall j :: Get(m', j) == if j == k then Some(v) else Get(m, j))
            && (forall j :: Issued(m', j) <==> Issued(m, j))
  {
  }
}
