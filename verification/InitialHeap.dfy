/** The initial values of a project: the graph that a project file describes with nested lists and references
    is linked into a table of reference values, and the heap is built from that table in two passes. */
module InitialHeap {
  import opened Common
  import opened Values

  /** A value in a project file. A list may have a number by which references name it. */
  datatype Given =
    | GivenBool(b: bool) | GivenNum(n: real) | GivenTxt(s: Str) | GivenRef(r: nat)
    | GivenList(items: seq<Given>, name: Option<nat>)

  datatype Init = InitBool(b: bool) | InitNum(n: real) | InitRef(i: nat)

  datatype RefValue = ListRef(items: seq<Init>) | TxtRef(s: Str)

  type Slots = seq<Option<RefValue>>

  datatype UndefinedRef = UndefinedRef(value: Given)

  // ----- what is in a given value -----

  /** The names of lists, in the order in which the lists begin. */
  function Names(a: Given): seq<nat>
    decreases a, 0
  {
    if a.GivenList? then (if a.name.Some? then [a.name.value] else []) + NamesAll(a.items) else []
  }

  function NamesAll(s: seq<Given>): seq<nat>
    decreases s, |s|
  {
    if s == [] then [] else Names(s[0]) + NamesAll(s[1..])
  }

  /** The names that references ask for. */
  function Wants(a: Given): seq<nat>
    decreases a, 0
  {
    if a.GivenRef? then [a.r] else if a.GivenList? then WantsAll(a.items) else []
  }

  function WantsAll(s: seq<Given>): seq<nat>
    decreases s, |s|
  {
    if s == [] then [] else Wants(s[0]) + WantsAll(s[1..])
  }

  /** The first name that is asked for in vain. */
  ghost predicate FirstMissing(wants: seq<nat>, refs: map<nat, nat>, x: nat) {
    exists k :: 0 <= k < |wants| && wants[k] == x && x !in refs && forall j :: 0 <= j < k ==> wants[j] in refs
  }

  /** The error names the first reference for which there is no list. */
  ghost predicate Blames(e: UndefinedRef, wants: seq<nat>, refs: map<nat, nat>) {
    e.value.GivenRef? && FirstMissing(wants, refs, e.value.r)
  }

  lemma MissingBehind(a: seq<nat>, b: seq<nat>, c: seq<nat>, refs: map<nat, nat>, x: nat)
    requires (forall y :: y in a ==> y in refs) && FirstMissing(b, refs, x)
    ensures FirstMissing(a + b + c, refs, x)
  {
    var k :| 0 <= k < |b| && b[k] == x && x !in refs && forall j :: 0 <= j < k ==> b[j] in refs;
    var all := a + b + c;
    assert all[|a| + k] == x;
    forall j | 0 <= j < |a| + k ensures all[j] in refs {
      assert j >= |a| ==> all[j] == b[j - |a|];
    }
  }

  lemma OneMissing(x: nat, refs: map<nat, nat>)
    requires x !in refs
    ensures FirstMissing([x], refs, x)
  {
    assert [x][0] == x;
  }

  ghost predicate NoDup(s: seq<nat>) {
    forall i, j :: 0 <= i < j < |s| ==> s[i] != s[j]
  }

  lemma NoDupSplit(a: seq<nat>, b: seq<nat>)
    ensures NoDup(a + b) <==> NoDup(a) && NoDup(b) && forall x :: x in a ==> x !in b
  {
    var c := a + b;
    if NoDup(c) {
      forall i, j | 0 <= i < j < |a| ensures a[i] != a[j] {
        assert c[i] != c[j];
      }
      forall i, j | 0 <= i < j < |b| ensures b[i] != b[j] {
        assert c[|a| + i] != c[|a| + j];
      }
      forall i, j | 0 <= i < |a| && 0 <= j < |b| ensures a[i] != b[j] {
        assert c[i] != c[|a| + j];
      }
    }
    if NoDup(a) && NoDup(b) && forall x :: x in a ==> x !in b {
      forall i, j | 0 <= i < j < |c| ensures c[i] != c[j] {
        if i < |a| {
          assert c[i] in a;
        }
      }
    }
  }

  lemma {:induction false} NamesSplit(s: seq<Given>, i: nat)
    requires i < |s|
    ensures NamesAll(s) == NamesAll(s[..i]) + Names(s[i]) + NamesAll(s[i + 1..])
    decreases i
  {
    if i == 0 {
      assert s[..0] == [];
    } else {
      NamesSplit(s[1..], i - 1);
      assert s[1..][..i - 1] == s[..i][1..] && s[1..][i..] == s[i + 1..];
    }
  }

  lemma {:induction false} NamesAdd(s: seq<Given>, i: nat)
    requires i < |s|
    ensures NamesAll(s[..i + 1]) == NamesAll(s[..i]) + Names(s[i])
    decreases i
  {
    var t := s[..i + 1];
    NamesSplit(t, i);
    assert t[..i] == s[..i] && t[i + 1..] == [];
  }

  lemma {:induction false} WantsSplit(s: seq<Given>, i: nat)
    requires i < |s|
    ensures WantsAll(s) == WantsAll(s[..i]) + Wants(s[i]) + WantsAll(s[i + 1..])
    decreases i
  {
    if i == 0 {
      assert s[..0] == [];
    } else {
      WantsSplit(s[1..], i - 1);
      assert s[1..][..i - 1] == s[..i][1..] && s[1..][i..] == s[i + 1..];
    }
  }

  // ----- representation in the table -----

  /** `iv` stands for `a`; references are taken as the lists that they name. */
  ghost predicate Rep(a: Given, iv: Init, slots: Slots, refs: map<nat, nat>)
    decreases a
  {
    match a
    case GivenBool(b) => iv == InitBool(b)
    case GivenNum(n) => iv == InitNum(n)
    case GivenTxt(s) => iv.InitRef? && iv.i < |slots| && slots[iv.i] == Some(TxtRef(s))
    case GivenRef(r) => r in refs && iv == InitRef(refs[r])
    case GivenList(items, name) =>
      && iv.InitRef? && ListAt(slots, iv.i) && (name.Some? ==> name.value in refs && iv.i == refs[name.value])
      && |slots[iv.i].value.items| == |items|
      && forall j :: 0 <= j < |items| ==> Rep(items[j], slots[iv.i].value.items[j], slots, refs)
  }

  predicate ListAt(slots: Slots, i: nat) {
    i < |slots| && slots[i].Some? && slots[i].value.ListRef?
  }

  /** What has been filled in stays. */
  ghost predicate Keeps(s: Slots, t: Slots) {
    |s| <= |t| && forall i :: 0 <= i < |s| && s[i].Some? ==> t[i] == s[i]
  }

  lemma {:induction false} RepStays(a: Given, iv: Init, s: Slots, t: Slots, refs: map<nat, nat>)
    requires Rep(a, iv, s, refs) && Keeps(s, t)
    ensures Rep(a, iv, t, refs) && Nodes(a, iv, t) == Nodes(a, iv, s)
    decreases a, 0
  {
    if a.GivenList? {
      var ivs := s[iv.i].value.items;
      forall j | 0 <= j < |a.items| ensures Rep(a.items[j], t[iv.i].value.items[j], t, refs) {
        RepStays(a.items[j], ivs[j], s, t, refs);
      }
      RepAllStays(a.items, ivs, s, t, refs);
    }
  }

  lemma {:induction false} RepAllStays(items: seq<Given>, ivs: seq<Init>, s: Slots, t: Slots, refs: map<nat, nat>)
    requires |ivs| == |items| && Keeps(s, t) && forall j :: 0 <= j < |items| ==> Rep(items[j], ivs[j], s, refs)
    ensures NodesAll(items, ivs, t) == NodesAll(items, ivs, s)
    decreases items, |items|
  {
    if items != [] {
      RepStays(items[0], ivs[0], s, t, refs);
      RepAllStays(items[1..], ivs[1..], s, t, refs);
    }
  }

  // ----- the lists that make up a value -----

  /** The table entries of the lists that are written out in a value, one for each. */
  function Nodes(a: Given, iv: Init, slots: Slots): seq<nat>
    decreases a, 0
  {
    if a.GivenList? && iv.InitRef? && ListAt(slots, iv.i)
      then [iv.i] + NodesAll(a.items, slots[iv.i].value.items, slots) else []
  }

  function NodesAll(items: seq<Given>, ivs: seq<Init>, slots: Slots): seq<nat>
    decreases items, |items|
  {
    if items == [] || ivs == [] then [] else Nodes(items[0], ivs[0], slots) + NodesAll(items[1..], ivs[1..], slots)
  }

  lemma {:induction false} NodesAdd(items: seq<Given>, ivs: seq<Init>, a: Given, iv: Init, slots: Slots)
    requires |items| == |ivs|
    ensures NodesAll(items + [a], ivs + [iv], slots) == NodesAll(items, ivs, slots) + Nodes(a, iv, slots)
    decreases |items|
  {
    if items == [] {
      assert items + [a] == [a] && ivs + [iv] == [iv] && [a][1..] == [];
    } else {
      assert (items + [a])[1..] == items[1..] + [a] && (ivs + [iv])[1..] == ivs[1..] + [iv];
      NodesAdd(items[1..], ivs[1..], a, iv, slots);
    }
  }

  /** Lists that are in `t`, but were not in `s`. */
  predicate NewList(s: Slots, t: Slots, i: nat) {
    ListAt(t, i) && (i < |s| ==> s[i].None?)
  }

  ghost predicate Claims(nodes: seq<nat>, s: Slots, t: Slots) {
    NoDup(nodes) && forall i :: i in nodes <==> NewList(s, t, i)
  }

  lemma ClaimsTwice(m: seq<nat>, n: seq<nat>, s: Slots, t: Slots, u: Slots)
    requires Claims(m, s, t) && Claims(n, t, u) && Keeps(s, t) && Keeps(t, u)
    ensures Claims(m + n, s, u)
  {
    forall x | x in m ensures x !in n {
      assert NewList(s, t, x);
    }
    NoDupSplit(m, n);
    forall i ensures i in m + n <==> NewList(s, u, i) {
      assert i in m <==> NewList(s, t, i);
      assert i in n <==> NewList(t, u, i);
    }
  }

  // ----- linking -----

  /** The names of `names` have got their lists, other names have not, and new entries are filled. */
  ghost predicate Fills(s: Slots, t: Slots, names: seq<nat>, refs: map<nat, nat>) {
    && Keeps(s, t)
    && (forall i :: |s| <= i < |t| ==> t[i].Some?)
    && (forall r :: r in refs && refs[r] < |s| ==>
          (r in names ==> t[refs[r]].Some?) && (r !in names && s[refs[r]].None? ==> t[refs[r]].None?))
  }

  lemma FillsTwice(s: Slots, t: Slots, u: Slots, m: seq<nat>, n: seq<nat>, refs: map<nat, nat>)
    requires Fills(s, t, m, refs) && Fills(t, u, n, refs)
    ensures Fills(s, u, m + n, refs)
  {
  }

  ghost predicate RefsGood(refs: map<nat, nat>, n: nat) {
    && (forall r :: r in refs ==> refs[r] < n)
    && (forall r, q :: r in refs && q in refs && refs[r] == refs[q] ==> r == q)
  }

  /** Every entry is open, and belongs to one name. */
  ghost predicate Registered(refs: map<nat, nat>, slots: Slots) {
    && RefsGood(refs, |slots|)
    && (forall i :: 0 <= i < |slots| ==> slots[i].None? && Named(refs, i))
  }

  ghost predicate Named(refs: map<nat, nat>, i: nat) {
    exists r :: r in refs && refs[r] == i
  }

  lemma OneMore(refs: map<nat, nat>, slots: Slots, r: nat)
    requires Registered(refs, slots) && r !in refs
    ensures Registered(refs[r := |slots|], slots + [None])
  {
    var more := refs[r := |slots|];
    forall i | 0 <= i < |slots| + 1 ensures Named(more, i) {
      if i == |slots| {
        assert r in more && more[r] == i;
      } else {
        assert slots[i].None?;
        var q :| q in refs && refs[q] == i;
        assert q in more && more[q] == i;
      }
    }
  }

  ghost predicate Open(slots: Slots, refs: map<nat, nat>, names: seq<nat>) {
    forall r :: r in names ==> r in refs && refs[r] < |slots| && slots[refs[r]].None?
  }

  ghost predicate StringsGood(strings: map<Str, nat>, slots: Slots) {
    forall s :: s in strings ==> strings[s] < |slots| && slots[strings[s]] == Some(TxtRef(s))
  }

  ghost predicate Found(wants: seq<nat>, refs: map<nat, nat>) {
    forall r :: r in wants ==> r in refs
  }

  class Linking {
    var refValues: Slots
    var refs: map<nat, nat>
    var stringRefs: map<Str, nat>

    constructor ()
      ensures refValues == [] && refs == map[] && stringRefs == map[]
    {
      refValues, refs, stringRefs := [], map[], map[];
    }

    ghost predicate Valid()
      reads this
    {
      RefsGood(refs, |refValues|) && StringsGood(stringRefs, refValues)
    }

    /** Every name gets an entry of its own, to be filled later. */
    method Register(value: Given)
      requires Registered(refs, refValues)
      modifies this`refValues, this`refs
      ensures Registered(refs, refValues)
      ensures forall r :: r in refs <==> r in old(refs) || r in Names(value)
      decreases value
    {
      if value.GivenList? {
        if value.name.Some? {
          var r := value.name.value;
          if r !in refs {
            OneMore(refs, refValues, r);
            refValues := refValues + [None];
            refs := refs[r := |refValues| - 1];
          }
        }
        ghost var start := refs;
        for i := 0 to |value.items|
          invariant Registered(refs, refValues)
          invariant forall r :: r in refs <==> r in start || r in NamesAll(value.items[..i])
        {
          Register(value.items[i]);
          NamesAdd(value.items, i);
        }
        assert value.items[..|value.items|] == value.items;
      }
    }

    /** Links a value: entries are filled for its texts and for the lists written out in it. */
    method GetValue(value: Given) returns (r: Result<Init, UndefinedRef>)
      requires Valid() && NoDup(Names(value)) && Open(refValues, refs, Names(value))
      modifies this`refValues, this`stringRefs
      ensures r.Ok? <==> Found(Wants(value), refs)
      ensures r.Err? ==> Blames(r.error, Wants(value), refs)
      ensures r.Ok? ==> Valid() && Fills(old(refValues), refValues, Names(value), refs)
      ensures r.Ok? ==>
                Rep(value, r.value, refValues, refs)
                  && Claims(Nodes(value, r.value, refValues), old(refValues), refValues)
      decreases value, 1
    {
      hide Rep, Claims, Nodes, NodesAll, NoDup;
      match value {
        case GivenBool(b) =>
          r := Ok(InitBool(b));
          PlainClaims(value, r.value, refValues, refs);
        case GivenNum(n) =>
          r := Ok(InitNum(n));
          PlainClaims(value, r.value, refValues, refs);
        case GivenRef(x) =>
          if x !in refs {
            OneMissing(x, refs);
            return Err(UndefinedRef(value));
          }
          r := Ok(InitRef(refs[x]));
          PlainClaims(value, r.value, refValues, refs);
        case GivenTxt(s) =>
          ghost var was := refValues;
          if s !in stringRefs {
            refValues := refValues + [Some(TxtRef(s))];
            stringRefs := stringRefs[s := |refValues| - 1];
          }
          r := Ok(InitRef(stringRefs[s]));
          TxtClaims(s, r.value, was, refValues, refs);
        case GivenList(_, _) =>
          r := GetList(value);
      }
    }

    method GetList(value: Given) returns (r: Result<Init, UndefinedRef>)
      requires value.GivenList? && Valid() && NoDup(Names(value)) && Open(refValues, refs, Names(value))
      modifies this`refValues, this`stringRefs
      ensures r.Ok? <==> Found(Wants(value), refs)
      ensures r.Err? ==> Blames(r.error, Wants(value), refs)
      ensures r.Ok? ==> Valid() && Fills(old(refValues), refValues, Names(value), refs)
      ensures r.Ok? ==>
                Rep(value, r.value, refValues, refs)
                  && Claims(Nodes(value, r.value, refValues), old(refValues), refValues)
      decreases value, 0
    {
      hide Rep, Claims, Nodes, NodesAll, NoDup, Fills, Open, Found, Names, Wants, NamesAll;
      ghost var was := refValues;
      ghost var own: seq<nat> := if value.name.Some? then [value.name.value] else [];
      NamesOfList(value);
      NoDupSplit(own, NamesAll(value.items));
      OpenParts(refValues, refs, own, NamesAll(value.items));
      var items := GetAll(value.items);
      if items.Err? {
        return Err(items.error);
      }
      ghost var mid := refValues;
      StillOpen(was, mid, refs, own, NamesAll(value.items));
      if value.name.Some? {
        OpenAt(mid, refs, value.name.value, own);
        var idx := refs[value.name.value];
        refValues := refValues[idx := Some(ListRef(items.value))];
        r := Ok(InitRef(idx));
      } else {
        refValues := refValues + [Some(ListRef(items.value))];
        r := Ok(InitRef(|refValues| - 1));
      }
      ListLinked(value, items.value, r.value.i, was, mid, refValues, refs);
      assert Valid();
    }

    method GetAll(values: seq<Given>) returns (r: Result<seq<Init>, UndefinedRef>)
      requires Valid() && NoDup(NamesAll(values)) && Open(refValues, refs, NamesAll(values))
      modifies this`refValues, this`stringRefs
      ensures r.Ok? <==> Found(WantsAll(values), refs)
      ensures r.Err? ==> Blames(r.error, WantsAll(values), refs)
      ensures r.Ok? ==> Valid() && Fills(old(refValues), refValues, NamesAll(values), refs) && |r.value| == |values|
      ensures r.Ok? ==>
                RepAll(values, r.value, refValues, refs)
                  && Claims(NodesAll(values, r.value, refValues), old(refValues), refValues)
      decreases values, 2
    {
      hide Rep, RepAll, Claims, Nodes, NodesAll, NoDup, Fills, Open, Found, Names, NamesAll, Wants, WantsAll;
      ghost var was := refValues;
      var res: seq<Init> := [];
      AllBegin(values, refValues, refs);
      for i := 0 to |values|
        invariant Valid() && |res| == i
        invariant Fills(was, refValues, NamesAll(values[..i]), refs) && Found(WantsAll(values[..i]), refs)
        invariant RepAll(values[..i], res, refValues, refs)
                  && Claims(NodesAll(values[..i], res, refValues), was, refValues)
      {
        ghost var mid := refValues;
        NamesSplit(values, i);
        NamesAdd(values, i);
        NextOpen(values, i, was, mid, refs);
        var x := GetValue(values[i]);
        if x.Err? {
          NotFound(values, i, refs);
          StillMissing(values, i, refs, x.error);
          return Err(x.error);
        }
        AllNext(values, i, res, x.value, was, mid, refValues, refs);
        res := res + [x.value];
      }
      assert values[..|values|] == values;
      return Ok(res);
    }
  }

  lemma StillMissing(values: seq<Given>, i: nat, refs: map<nat, nat>, e: UndefinedRef)
    requires i < |values| && Found(WantsAll(values[..i]), refs) && Blames(e, Wants(values[i]), refs)
    ensures Blames(e, WantsAll(values), refs)
  {
    hide Wants, WantsAll, FirstMissing;
    WantsSplit(values, i);
    MissingBehind(WantsAll(values[..i]), Wants(values[i]), WantsAll(values[i + 1..]), refs, e.value.r);
  }

  ghost predicate RepAll(items: seq<Given>, ivs: seq<Init>, slots: Slots, refs: map<nat, nat>) {
    |ivs| == |items| && forall j :: 0 <= j < |items| ==> Rep(items[j], ivs[j], slots, refs)
  }

  lemma PlainClaims(a: Given, iv: Init, slots: Slots, refs: map<nat, nat>)
    requires (a.GivenBool? && iv == InitBool(a.b)) || (a.GivenNum? && iv == InitNum(a.n))
             || (a.GivenRef? && a.r in refs && iv == InitRef(refs[a.r]))
    ensures Rep(a, iv, slots, refs) && Claims(Nodes(a, iv, slots), slots, slots) && Fills(slots, slots, Names(a), refs)
  {
  }

  lemma TxtClaims(s: Str, iv: Init, was: Slots, slots: Slots, refs: map<nat, nat>)
    requires iv.InitRef? && iv.i < |slots| && slots[iv.i] == Some(TxtRef(s))
             && (slots == was || slots == was + [Some(TxtRef(s))])
    ensures Rep(GivenTxt(s), iv, slots, refs) && Claims(Nodes(GivenTxt(s), iv, slots), was, slots)
            && Fills(was, slots, Names(GivenTxt(s)), refs)
  {
  }

  lemma NamesOfList(a: Given)
    requires a.GivenList?
    ensures Names(a) == (if a.name.Some? then [a.name.value] else []) + NamesAll(a.items)
            && Wants(a) == WantsAll(a.items)
  {
  }

  lemma OpenParts(slots: Slots, refs: map<nat, nat>, m: seq<nat>, n: seq<nat>)
    ensures Open(slots, refs, m + n) <==> Open(slots, refs, m) && Open(slots, refs, n)
  {
    forall r ensures r in m + n <==> r in m || r in n {
    }
  }

  lemma OpenAt(slots: Slots, refs: map<nat, nat>, r: nat, names: seq<nat>)
    requires Open(slots, refs, names) && r in names
    ensures r in refs && refs[r] < |slots| && slots[refs[r]].None?
  {
  }

  /** Names of which none has been filled in stay open. */
  lemma StillOpen(s: Slots, t: Slots, refs: map<nat, nat>, m: seq<nat>, n: seq<nat>)
    requires Open(s, refs, m) && Fills(s, t, n, refs) && forall x :: x in m ==> x !in n
    ensures Open(t, refs, m)
  {
  }

  lemma ListLinked(a: Given, ivs: seq<Init>, idx: nat, was: Slots, mid: Slots, slots: Slots, refs: map<nat, nat>)
    requires a.GivenList? && RepAll(a.items, ivs, mid, refs) && Claims(NodesAll(a.items, ivs, mid), was, mid)
             && Fills(was, mid, NamesAll(a.items), refs)
    requires RefsGood(refs, |was|)
    requires if a.name.Some? then a.name.value in refs && idx == refs[a.name.value] && idx < |mid| && mid[idx].None?
             && slots == mid[idx := Some(ListRef(ivs))]
             else idx == |mid| && slots == mid + [Some(ListRef(ivs))]
    ensures Rep(a, InitRef(idx), slots, refs) && Claims(Nodes(a, InitRef(idx), slots), was, slots)
            && Fills(was, slots, Names(a), refs)
    ensures Keeps(mid, slots)
  {
    hide NoDup, Claims, NodesAll, Rep, NewList;
    assert Keeps(mid, slots);
    forall j | 0 <= j < |ivs| ensures Rep(a.items[j], ivs[j], slots, refs) {
      RepStays(a.items[j], ivs[j], mid, slots, refs);
    }
    RepAllStays(a.items, ivs, mid, slots, refs);
    ListRep(a, ivs, idx, slots, refs);
    OwnClaim(NodesAll(a.items, ivs, mid), idx, was, mid, slots);
  }

  lemma ListRep(a: Given, ivs: seq<Init>, idx: nat, slots: Slots, refs: map<nat, nat>)
    requires a.GivenList? && idx < |slots| && slots[idx] == Some(ListRef(ivs)) && RepAll(a.items, ivs, slots, refs)
    requires a.name.Some? ==> a.name.value in refs && idx == refs[a.name.value]
    ensures Rep(a, InitRef(idx), slots, refs)
  {
  }

  lemma OwnClaim(nodes: seq<nat>, idx: nat, was: Slots, mid: Slots, slots: Slots)
    requires Claims(nodes, was, mid) && Keeps(was, mid) && Keeps(mid, slots) && ListAt(slots, idx)
             && (idx < |mid| ==> mid[idx].None?)
    requires |slots| <= |mid| + 1 && forall i :: 0 <= i < |slots| && i != idx ==> i < |mid| && slots[i] == mid[i]
    ensures Claims([idx] + nodes, was, slots)
  {
    NoDupSplit([idx], nodes);
    assert !NewList(was, mid, idx);
    forall i ensures i in [idx] + nodes <==> NewList(was, slots, i) {
      assert i in nodes <==> NewList(was, mid, i);
    }
  }

  lemma AllBegin(values: seq<Given>, slots: Slots, refs: map<nat, nat>)
    ensures values[..0] == [] && Fills(slots, slots, NamesAll(values[..0]), refs) && Found(WantsAll(values[..0]), refs)
    ensures RepAll(values[..0], [], slots, refs) && Claims(NodesAll(values[..0], [], slots), slots, slots)
  {
  }

  lemma NextOpen(values: seq<Given>, i: nat, was: Slots, mid: Slots, refs: map<nat, nat>)
    requires i < |values| && NoDup(NamesAll(values)) && Open(was, refs, NamesAll(values))
             && Fills(was, mid, NamesAll(values[..i]), refs)
    requires NamesAll(values) == NamesAll(values[..i]) + Names(values[i]) + NamesAll(values[i + 1..])
    ensures NoDup(Names(values[i])) && Open(mid, refs, Names(values[i]))
  {
    hide NoDup, Fills, Open;
    var m, n, l := NamesAll(values[..i]), Names(values[i]), NamesAll(values[i + 1..]);
    NoDupSplit(m + n, l);
    NoDupSplit(m, n);
    OpenParts(was, refs, m + n, l);
    OpenParts(was, refs, m, n);
    StillOpen(was, mid, refs, n, m);
  }

  lemma NotFound(values: seq<Given>, i: nat, refs: map<nat, nat>)
    requires i < |values| && !Found(Wants(values[i]), refs)
    ensures !Found(WantsAll(values), refs)
  {
    WantsSplit(values, i);
    var r :| r in Wants(values[i]) && r !in refs;
    assert r in WantsAll(values);
  }

  lemma AllNext(values: seq<Given>, i: nat, res: seq<Init>, x: Init, was: Slots, mid: Slots, slots: Slots,
                refs: map<nat, nat>)
    requires i < |values| && |res| == i
    requires Fills(was, mid, NamesAll(values[..i]), refs) && Found(WantsAll(values[..i]), refs)
    requires RepAll(values[..i], res, mid, refs) && Claims(NodesAll(values[..i], res, mid), was, mid)
    requires Fills(mid, slots, Names(values[i]), refs) && Found(Wants(values[i]), refs)
    requires Rep(values[i], x, slots, refs) && Claims(Nodes(values[i], x, slots), mid, slots)
    ensures Fills(was, slots, NamesAll(values[..i + 1]), refs) && Found(WantsAll(values[..i + 1]), refs)
    ensures RepAll(values[..i + 1], res + [x], slots, refs)
            && Claims(NodesAll(values[..i + 1], res + [x], slots), was, slots)
  {
    hide Rep, Claims, Nodes, NodesAll, NoDup, Names, NamesAll, Wants, WantsAll;
    var t := values[..i];
    assert values[..i + 1] == t + [values[i]];
    NamesAdd(values, i);
    FillsTwice(was, mid, slots, NamesAll(t), Names(values[i]), refs);
    WantsAdd(values, i);
    RepAllStays(t, res, mid, slots, refs);
    forall j | 0 <= j < |t| ensures Rep(t[j], res[j], slots, refs) {
      RepStays(t[j], res[j], mid, slots, refs);
    }
    NodesAdd(t, res, values[i], x, slots);
    ClaimsTwice(NodesAll(t, res, slots), Nodes(values[i], x, slots), was, mid, slots);
  }

  lemma WantsAdd(s: seq<Given>, i: nat)
    requires i < |s|
    ensures WantsAll(s[..i + 1]) == WantsAll(s[..i]) + Wants(s[i])
  {
    var t := s[..i + 1];
    WantsSplit(t, i);
    assert t[..i] == s[..i] && t[i + 1..] == [];
  }

  // ----- the table -----

  datatype InitInfo = InitInfo(refs: seq<RefValue>, roots: seq<Init>)

  function Filled(table: seq<RefValue>): Slots {
    seq(|table|, i requires 0 <= i < |table| => Some(table[i]))
  }

  /** `info` is the link of `roots`, with the named lists where `refs` says, and one entry for each list. */
  ghost predicate LinkOf(roots: seq<Given>, info: InitInfo, refs: map<nat, nat>) {
    && (forall r :: r in refs <==> r in NamesAll(roots))
    && RepAll(roots, info.roots, Filled(info.refs), refs)
    && Claims(NodesAll(roots, info.roots, Filled(info.refs)), [], Filled(info.refs))
  }

  /** The error is the first reference, in the order of the file, to a name that no list has. */
  ghost predicate Undefined(roots: seq<Given>, e: UndefinedRef) {
    && e.value.GivenRef?
    && exists k :: 0 <= k < |WantsAll(roots)| && WantsAll(roots)[k] == e.value.r && e.value.r !in NamesAll(roots)
                   && forall j :: 0 <= j < k ==> WantsAll(roots)[j] in NamesAll(roots)
  }

  lemma UndefinedIs(roots: seq<Given>, refs: map<nat, nat>, e: UndefinedRef)
    requires Blames(e, WantsAll(roots), refs) && forall r :: r in refs <==> r in NamesAll(roots)
    ensures Undefined(roots, e)
  {
    hide WantsAll, NamesAll;
  }

  /** Registers all names first, so that references may come before what they name. Then links all values. */
  method ExtractInitInfo(roots: seq<Given>) returns (r: Result<InitInfo, UndefinedRef>)
    requires NoDup(NamesAll(roots))
    ensures r.Ok? <==> forall x :: x in WantsAll(roots) ==> x in NamesAll(roots)
    ensures r.Err? ==> Undefined(roots, r.error)
    ensures r.Ok? ==> exists refs :: LinkOf(roots, r.value, refs)
  {
    hide NoDup, RepAll, Claims, Blames, Undefined;
    var link := new Linking();
    for i := 0 to |roots|
      invariant Registered(link.refs, link.refValues) && link.stringRefs == map[]
      invariant forall r :: r in link.refs <==> r in NamesAll(roots[..i])
    {
      link.Register(roots[i]);
      NamesAdd(roots, i);
    }
    assert roots[..|roots|] == roots;
    ghost var was := link.refValues;
    var inits := link.GetAll(roots);
    if inits.Err? {
      UndefinedIs(roots, link.refs, inits.error);
      return Err(inits.error);
    }
    NoneOpen(was, link.refValues, NamesAll(roots), link.refs);
    var table: seq<RefValue> := [];
    for i := 0 to |link.refValues|
      invariant |table| == i && forall j :: 0 <= j < i ==> link.refValues[j] == Some(table[j])
    {
      table := table + [link.refValues[i].value];
    }
    assert Filled(table) == link.refValues;
    r := Ok(InitInfo(table, inits.value));
    NewFromNothing(NodesAll(roots, inits.value, link.refValues), was, link.refValues);
    assert LinkOf(roots, r.value, link.refs);
  }

  lemma NoneOpen(s: Slots, t: Slots, names: seq<nat>, refs: map<nat, nat>)
    requires Registered(refs, s) && Fills(s, t, names, refs) && forall r :: r in refs <==> r in names
    ensures forall i :: 0 <= i < |t| ==> t[i].Some?
  {
    forall i | 0 <= i < |t| ensures t[i].Some? {
      if i < |s| {
        assert Named(refs, i);
      }
    }
  }

  lemma NewFromNothing(nodes: seq<nat>, s: Slots, t: Slots)
    requires Claims(nodes, s, t) && forall i :: 0 <= i < |s| ==> s[i].None?
    ensures Claims(nodes, [], t)
  {
    hide NoDup;
    forall i ensures NewList([], t, i) <==> NewList(s, t, i) {
    }
  }

  // ----- the heap -----

  /** The number of lists among the first `i` entries. */
  function ListsBefore(table: seq<RefValue>, i: nat): nat
    decreases i
  {
    if i == 0 then 0 else ListsBefore(table, i - 1) + if i <= |table| && table[i - 1].ListRef? then 1 else 0
  }

  function ValueOf(table: seq<RefValue>, iv: Init): Value {
    match iv
    case InitBool(b) => Bool(b)
    case InitNum(n) => Num(n)
    case InitRef(i) => if i < |table| && table[i].TxtRef? then Txt(table[i].s) else List(ListsBefore(table, i))
  }

  function ValuesOf(table: seq<RefValue>, ivs: seq<Init>): seq<Value> {
    seq(|ivs|, i requires 0 <= i < |ivs| => ValueOf(table, ivs[i]))
  }

  predicate InBounds(ivs: seq<Init>, n: nat) {
    forall i :: 0 <= i < |ivs| && ivs[i].InitRef? ==> ivs[i].i < n
  }

  predicate AllInBounds(table: seq<RefValue>) {
    forall i :: 0 <= i < |table| && table[i].ListRef? ==> InBounds(table[i].items, |table|)
  }

  /** Every list of the table has its place in the heap. */
  ghost predicate Loaded(table: seq<RefValue>, lists: seq<seq<Value>>) {
    && |lists| == ListsBefore(table, |table|)
    && forall i :: 0 <= i < |table| && table[i].ListRef? ==>
      ListsBefore(table, i) < |lists| && lists[ListsBefore(table, i)] == ValuesOf(table, table[i].items)
  }

  lemma {:induction false} ListsBeforeOrder(table: seq<RefValue>, i: nat, j: nat)
    requires i < j
    ensures ListsBefore(table, i) <= ListsBefore(table, j)
    ensures i < |table| && table[i].ListRef? ==> ListsBefore(table, i) < ListsBefore(table, j)
    decreases j
  {
    if i < j - 1 {
      ListsBeforeOrder(table, i, j - 1);
    }
  }

  lemma {:induction false} ListAtRank(table: seq<RefValue>, n: nat, k: nat) returns (i: nat)
    requires n <= |table| && k < ListsBefore(table, n)
    ensures i < n && table[i].ListRef? && ListsBefore(table, i) == k
    decreases n
  {
    if k < ListsBefore(table, n - 1) {
      i := ListAtRank(table, n - 1, k);
    } else {
      i := n - 1;
    }
  }

  /** Two passes: all lists are allocated before any of them is filled. */
  method FromInit(info: InitInfo) returns (lists: seq<seq<Value>>, values: seq<Value>)
    requires AllInBounds(info.refs) && InBounds(info.roots, |info.refs|)
    ensures Loaded(info.refs, lists) && values == ValuesOf(info.refs, info.roots)
  {
    hide ListsBefore, ValuesOf;
    var table := info.refs;
    var allocatedRefs: seq<Value> := [];
    lists := [];
    assert ListsBefore(table, 0) == 0 by { NoLists(table); }
    for i := 0 to |table|
      invariant |allocatedRefs| == i && |lists| == ListsBefore(table, i)
      invariant forall j :: 0 <= j < i ==> allocatedRefs[j] == ValueOf(table, InitRef(j))
      invariant forall k :: 0 <= k < |lists| ==> lists[k] == []
    {
      NextList(table, i);
      match table[i] {
        case TxtRef(s) => allocatedRefs := allocatedRefs + [Txt(s)];
        case ListRef(_) =>
          allocatedRefs := allocatedRefs + [List(|lists|)];
          lists := lists + [[]];
      }
    }
    forall j | 0 <= j < |table| && table[j].ListRef? ensures ListsBefore(table, j) < |lists| {
      ListsBeforeOrder(table, j, |table|);
    }
    for i := 0 to |table|
      invariant |lists| == ListsBefore(table, |table|)
      invariant forall j :: 0 <= j < i && table[j].ListRef? ==>
                  ListsBefore(table, j) < |lists| && lists[ListsBefore(table, j)] == ValuesOf(table, table[j].items)
      invariant forall j :: i <= j < |table| && table[j].ListRef? ==>
                  ListsBefore(table, j) < |lists| && lists[ListsBefore(table, j)] == []
    {
      if table[i].ListRef? {
        var items := table[i].items;
        ghost var before := lists;
        var id := allocatedRefs[i].id;
        assert id == ListsBefore(table, i) && lists[id] == [];
        assert ValuesOf(table, items[..0]) == [] by { NoValues(table); }
        for h := 0 to |items|
          invariant |lists| == |before| && lists[id] == ValuesOf(table, items[..h]) && lists == before[id := lists[id]]
        {
          var v := GetInit(items[h], allocatedRefs, table);
          MoreValues(table, items, h);
          lists := lists[id := lists[id] + [v]];
        }
        assert items[..|items|] == items;
        forall j | 0 <= j < |table| && j != i && table[j].ListRef? ensures ListsBefore(table, j) != id {
          if j < i {
            ListsBeforeOrder(table, j, i);
          } else {
            ListsBeforeOrder(table, i, j);
          }
        }
      }
    }
    values := [];
    assert ValuesOf(table, info.roots[..0]) == [] by { NoValues(table); }
    for i := 0 to |info.roots|
      invariant values == ValuesOf(table, info.roots[..i])
    {
      var v := GetInit(info.roots[i], allocatedRefs, table);
      MoreValues(table, info.roots, i);
      values := values + [v];
    }
    assert info.roots[..|info.roots|] == info.roots;
  }

  lemma NoLists(table: seq<RefValue>)
    ensures ListsBefore(table, 0) == 0
  {
  }

  lemma NextList(table: seq<RefValue>, i: nat)
    requires i < |table|
    ensures ListsBefore(table, i + 1) == ListsBefore(table, i) + if table[i].ListRef? then 1 else 0
    ensures forall j :: i <= j < |table| && table[j].ListRef? ==> ListsBefore(table, j) < ListsBefore(table, |table|)
  {
    forall j | i <= j < |table| && table[j].ListRef? ensures ListsBefore(table, j) < ListsBefore(table, |table|) {
      ListsBeforeOrder(table, j, |table|);
    }
  }

  lemma NoValues(table: seq<RefValue>)
    ensures ValuesOf(table, []) == []
  {
  }

  lemma MoreValues(table: seq<RefValue>, ivs: seq<Init>, i: nat)
    requires i < |ivs|
    ensures ValuesOf(table, ivs[..i + 1]) == ValuesOf(table, ivs[..i]) + [ValueOf(table, ivs[i])]
  {
    assert ivs[..i + 1] == ivs[..i] + [ivs[i]];
  }

  /** References are looked up among what has been allocatedRefs. */
  method GetInit(iv: Init, allocatedRefs: seq<Value>, ghost table: seq<RefValue>) returns (v: Value)
    requires iv.InitRef? ==> iv.i < |allocatedRefs|
    requires forall j :: 0 <= j < |allocatedRefs| ==> allocatedRefs[j] == ValueOf(table, InitRef(j))
    ensures v == ValueOf(table, iv)
  {
    match iv {
      case InitBool(b) => v := Bool(b);
      case InitNum(n) => v := Num(n);
      case InitRef(i) => v := allocatedRefs[i];
    }
  }
}
