/** The heap that is built looks like the graph that was given, from every point and to every depth, and it
    has one list for each list written out there. */
module InitialGraph {
  import opened Common
  import opened Values
  import opened InitialHeap

  // ----- the lists that names stand for -----

  function Defs(a: Given): map<nat, seq<Given>>
    decreases a, 0
  {
    if !a.GivenList? then map[] else DefsAll(a.items) + if a.name.Some? then map[a.name.value := a.items] else map[]
  }

  function DefsAll(s: seq<Given>): map<nat, seq<Given>>
    decreases s, |s|
  {
    if s == [] then map[] else Defs(s[0]) + DefsAll(s[1..])
  }

  lemma {:induction false} DefsNames(a: Given)
    ensures forall r :: r in Defs(a) <==> r in Names(a)
    decreases a, 0
  {
    if a.GivenList? {
      DefsNamesAll(a.items);
    }
  }

  lemma {:induction false} DefsNamesAll(s: seq<Given>)
    ensures forall r :: r in DefsAll(s) <==> r in NamesAll(s)
    decreases s, |s|
  {
    if s != [] {
      DefsNames(s[0]);
      DefsNamesAll(s[1..]);
    }
  }

  ghost predicate DefsIn(defs: map<nat, seq<Given>>, slots: Slots, refs: map<nat, nat>) {
    forall r :: r in defs ==>
      r in refs && ListAt(slots, refs[r]) && RepAll(defs[r], slots[refs[r]].value.items, slots, refs)
  }

  lemma {:induction false} DefsRep(a: Given, iv: Init, slots: Slots, refs: map<nat, nat>)
    requires Rep(a, iv, slots, refs)
    ensures DefsIn(Defs(a), slots, refs)
    decreases a, 0
  {
    if a.GivenList? {
      DefsRepAll(a.items, slots[iv.i].value.items, slots, refs);
    }
  }

  lemma {:induction false} DefsRepAll(s: seq<Given>, ivs: seq<Init>, slots: Slots, refs: map<nat, nat>)
    requires RepAll(s, ivs, slots, refs)
    ensures DefsIn(DefsAll(s), slots, refs)
    decreases s, |s|
  {
    if s != [] {
      DefsRep(s[0], ivs[0], slots, refs);
      DefsRepAll(s[1..], ivs[1..], slots, refs);
    }
  }

  // ----- bounds -----

  ghost predicate RefsThere(slots: Slots, refs: map<nat, nat>) {
    forall r :: r in refs ==> ListAt(slots, refs[r])
  }

  lemma RepInBounds(s: seq<Given>, ivs: seq<Init>, slots: Slots, refs: map<nat, nat>)
    requires RepAll(s, ivs, slots, refs) && RefsThere(slots, refs)
    ensures InBounds(ivs, |slots|)
  {
    forall i | 0 <= i < |ivs| && ivs[i].InitRef? ensures ivs[i].i < |slots| {
      assert Rep(s[i], ivs[i], slots, refs);
    }
  }

  lemma {:induction false} NodesInBounds(a: Given, iv: Init, slots: Slots, refs: map<nat, nat>)
    requires Rep(a, iv, slots, refs) && RefsThere(slots, refs)
    ensures forall i :: i in Nodes(a, iv, slots) ==> ListAt(slots, i) && InBounds(slots[i].value.items, |slots|)
    decreases a, 0
  {
    if a.GivenList? {
      RepInBounds(a.items, slots[iv.i].value.items, slots, refs);
      AllNodesInBounds(a.items, slots[iv.i].value.items, slots, refs);
    }
  }

  lemma {:induction false} AllNodesInBounds(s: seq<Given>, ivs: seq<Init>, slots: Slots, refs: map<nat, nat>)
    requires RepAll(s, ivs, slots, refs) && RefsThere(slots, refs)
    ensures forall i :: i in NodesAll(s, ivs, slots) ==> ListAt(slots, i) && InBounds(slots[i].value.items, |slots|)
    decreases s, |s|
  {
    if s != [] {
      NodesInBounds(s[0], ivs[0], slots, refs);
      AllNodesInBounds(s[1..], ivs[1..], slots, refs);
    }
  }

  lemma LinkInBounds(roots: seq<Given>, info: InitInfo, refs: map<nat, nat>)
    requires LinkOf(roots, info, refs)
    ensures AllInBounds(info.refs) && InBounds(info.roots, |info.refs|) && RefsThere(Filled(info.refs), refs)
  {
    hide NodesAll, NoDup, Rep;
    var slots := Filled(info.refs);
    DefsNamesAll(roots);
    DefsRepAll(roots, info.roots, slots, refs);
    assert RefsThere(slots, refs);
    RepInBounds(roots, info.roots, slots, refs);
    AllNodesInBounds(roots, info.roots, slots, refs);
    forall i | 0 <= i < |info.refs| && info.refs[i].ListRef? ensures InBounds(info.refs[i].items, |info.refs|) {
      assert NewList([], slots, i);
      assert i in NodesAll(roots, info.roots, slots);
    }
  }

  // ----- the given graph in the heap -----

  /** `v` is `a` in the heap: item by item where it is written out, and where it is a reference, the very
      list that has the name. */
  ghost predicate InHeap(a: Given, v: Value, lists: seq<seq<Value>>, home: map<nat, nat>)
    decreases a
  {
    match a
    case GivenBool(b) => v == Bool(b)
    case GivenNum(n) => v == Num(n)
    case GivenTxt(s) => v == Txt(s)
    case GivenRef(r) => r in home && v == List(home[r])
    case GivenList(items, name) =>
      && v.List? && v.id < |lists| && (name.Some? ==> name.value in home && v.id == home[name.value])
      && |lists[v.id]| == |items| && forall j :: 0 <= j < |items| ==> InHeap(items[j], lists[v.id][j], lists, home)
  }

  ghost predicate AllInHeap(s: seq<Given>, vs: seq<Value>, lists: seq<seq<Value>>, home: map<nat, nat>) {
    |vs| == |s| && forall j :: 0 <= j < |s| ==> InHeap(s[j], vs[j], lists, home)
  }

  ghost function Homes(table: seq<RefValue>, refs: map<nat, nat>): map<nat, nat> {
    map r | r in refs :: ListsBefore(table, refs[r])
  }

  lemma {:induction false} LoadedRep(a: Given, iv: Init, table: seq<RefValue>, lists: seq<seq<Value>>,
                                     refs: map<nat, nat>)
    requires Rep(a, iv, Filled(table), refs) && Loaded(table, lists) && RefsThere(Filled(table), refs)
    ensures InHeap(a, ValueOf(table, iv), lists, Homes(table, refs))
    decreases a
  {
    hide ListsBefore;
    if a.GivenList? {
      var items := table[iv.i].items;
      forall j | 0 <= j < |a.items| ensures InHeap(a.items[j], ValuesOf(table, items)[j], lists, Homes(table, refs)) {
        LoadedRep(a.items[j], items[j], table, lists, refs);
      }
    }
  }

  // ----- one list for each -----

  /** The lists of the heap that are written out in a value. */
  function HeapNodes(a: Given, v: Value, lists: seq<seq<Value>>): seq<nat>
    decreases a, 0
  {
    if a.GivenList? && v.List? && v.id < |lists| then [v.id] + HeapNodesAll(a.items, lists[v.id], lists) else []
  }

  function HeapNodesAll(s: seq<Given>, vs: seq<Value>, lists: seq<seq<Value>>): seq<nat>
    decreases s, |s|
  {
    if s == [] || vs == [] then [] else HeapNodes(s[0], vs[0], lists) + HeapNodesAll(s[1..], vs[1..], lists)
  }

  function Ranks(table: seq<RefValue>, nodes: seq<nat>): seq<nat> {
    seq(|nodes|, i requires 0 <= i < |nodes| => ListsBefore(table, nodes[i]))
  }

  lemma RanksJoin(table: seq<RefValue>, m: seq<nat>, n: seq<nat>)
    ensures Ranks(table, m + n) == Ranks(table, m) + Ranks(table, n)
  {
    hide ListsBefore;
  }

  lemma {:induction false} NodesRank(a: Given, iv: Init, table: seq<RefValue>, lists: seq<seq<Value>>,
                                     refs: map<nat, nat>)
    requires Rep(a, iv, Filled(table), refs) && Loaded(table, lists)
    ensures HeapNodes(a, ValueOf(table, iv), lists) == Ranks(table, Nodes(a, iv, Filled(table)))
    decreases a, 0
  {
    hide ListsBefore, Ranks;
    if a.GivenList? {
      var items := table[iv.i].items;
      AllNodesRank(a.items, items, table, lists, refs);
      RanksJoin(table, [iv.i], NodesAll(a.items, items, Filled(table)));
      OneRank(table, iv.i);
    } else {
      NoRanks(table);
    }
  }

  lemma NoRanks(table: seq<RefValue>)
    ensures Ranks(table, []) == []
  {
  }

  lemma OneRank(table: seq<RefValue>, i: nat)
    ensures Ranks(table, [i]) == [ListsBefore(table, i)]
  {
  }

  lemma {:induction false} AllNodesRank(s: seq<Given>, ivs: seq<Init>, table: seq<RefValue>, lists: seq<seq<Value>>,
                                        refs: map<nat, nat>)
    requires RepAll(s, ivs, Filled(table), refs) && Loaded(table, lists)
    ensures HeapNodesAll(s, ValuesOf(table, ivs), lists) == Ranks(table, NodesAll(s, ivs, Filled(table)))
    decreases s, |s|
  {
    hide ListsBefore, Ranks, Rep, Loaded, Nodes, HeapNodes;
    NoRanks(table);
    if s != [] {
      NodesRank(s[0], ivs[0], table, lists, refs);
      AllNodesRank(s[1..], ivs[1..], table, lists, refs);
      assert ValuesOf(table, ivs)[1..] == ValuesOf(table, ivs[1..]);
      RanksJoin(table, Nodes(s[0], ivs[0], Filled(table)), NodesAll(s[1..], ivs[1..], Filled(table)));
    }
  }

  /** `nodes` lists the numbers below `n`, each one once. */
  ghost predicate EachOnce(nodes: seq<nat>, n: nat) {
    NoDup(nodes) && forall k :: k in nodes <==> 0 <= k < n
  }

  lemma RanksEachOnce(table: seq<RefValue>, nodes: seq<nat>)
    requires Claims(nodes, [], Filled(table))
    ensures EachOnce(Ranks(table, nodes), ListsBefore(table, |table|))
  {
    var ranks := Ranks(table, nodes);
    forall i, j | 0 <= i < j < |ranks| ensures ranks[i] != ranks[j] {
      assert nodes[i] in nodes && nodes[j] in nodes && nodes[i] != nodes[j];
      if nodes[i] < nodes[j] {
        ListsBeforeOrder(table, nodes[i], nodes[j]);
      } else {
        ListsBeforeOrder(table, nodes[j], nodes[i]);
      }
    }
    forall k | k in ranks ensures 0 <= k < ListsBefore(table, |table|) {
      var i :| 0 <= i < |ranks| && ranks[i] == k;
      assert nodes[i] in nodes;
      ListsBeforeOrder(table, nodes[i], |table|);
    }
    forall k | 0 <= k < ListsBefore(table, |table|) ensures k in ranks {
      var i := ListAtRank(table, |table|, k);
      assert NewList([], Filled(table), i);
      RankIn(table, nodes, i);
    }
  }

  lemma RankIn(table: seq<RefValue>, nodes: seq<nat>, i: nat)
    requires i in nodes
    ensures ListsBefore(table, i) in Ranks(table, nodes)
  {
    var j :| 0 <= j < |nodes| && nodes[j] == i;
    assert Ranks(table, nodes)[j] == ListsBefore(table, i);
  }

  // ----- bisimilarity: the same view from every point, to every depth -----

  datatype View = Beyond | ViewBool(b: bool) | ViewNum(n: real) | ViewTxt(s: Str) | ViewList(items: seq<View>)

  /** A given value down to depth `n`, with references followed. */
  function GivenView(a: Given, defs: map<nat, seq<Given>>, n: nat): View
    decreases n
  {
    if n == 0 then Beyond
    else match a
      case GivenBool(b) => ViewBool(b)
      case GivenNum(x) => ViewNum(x)
      case GivenTxt(s) => ViewTxt(s)
      case GivenRef(r) =>
        if r in defs then ViewList(seq(|defs[r]|, i requires 0 <= i < |defs[r]| => GivenView(defs[r][i], defs, n - 1)))
        else Beyond
      case GivenList(items, _) =>
        ViewList(seq(|items|, i requires 0 <= i < |items| => GivenView(items[i], defs, n - 1)))
  }

  /** A value of the heap down to depth `n`. */
  function HeapView(v: Value, lists: seq<seq<Value>>, n: nat): View
    decreases n
  {
    if n == 0 then Beyond
    else match v
      case Bool(b) => ViewBool(b)
      case Num(x) => ViewNum(x)
      case Txt(s) => ViewTxt(s)
      case List(id) =>
        ViewList(seq(|Items(lists, id)|, i requires 0 <= i < |Items(lists, id)| =>
                     HeapView(Items(lists, id)[i], lists, n - 1)))
      case Closure(_) => Beyond
  }

  ghost predicate HomesHold(defs: map<nat, seq<Given>>, lists: seq<seq<Value>>, home: map<nat, nat>) {
    forall r :: r in home ==> r in defs && home[r] < |lists| && AllInHeap(defs[r], lists[home[r]], lists, home)
  }

  lemma {:induction false} ViewsAgree(a: Given, v: Value, defs: map<nat, seq<Given>>, lists: seq<seq<Value>>,
                                      home: map<nat, nat>, n: nat)
    requires InHeap(a, v, lists, home) && HomesHold(defs, lists, home)
    ensures GivenView(a, defs, n) == HeapView(v, lists, n)
    decreases n, 0
  {
    if n > 0 {
      match a {
        case GivenList(items, _) => ItemsAgree(items, lists[v.id], defs, lists, home, n - 1);
        case GivenRef(r) => ItemsAgree(defs[r], lists[v.id], defs, lists, home, n - 1);
        case _ =>
      }
    }
  }

  lemma {:induction false} ItemsAgree(s: seq<Given>, vs: seq<Value>, defs: map<nat, seq<Given>>,
                                      lists: seq<seq<Value>>, home: map<nat, nat>, n: nat)
    requires AllInHeap(s, vs, lists, home) && HomesHold(defs, lists, home)
    ensures forall i :: 0 <= i < |s| ==> GivenView(s[i], defs, n) == HeapView(vs[i], lists, n)
    decreases n, 1
  {
    hide InHeap, GivenView, HeapView, HomesHold;
    forall i | 0 <= i < |s| ensures GivenView(s[i], defs, n) == HeapView(vs[i], lists, n) {
      ViewsAgree(s[i], vs[i], defs, lists, home, n);
    }
  }

  // ----- linking and loading -----

  /** The whole of it: a reference to a name that no list has is an error, and the only one. Otherwise every
      value in the heap looks like the one that was given, to any depth; references are the very lists that
      they name; and every list of the heap is one list of the project file, and no other. */
  method Load(roots: seq<Given>) returns (r: Result<(seq<seq<Value>>, seq<Value>), UndefinedRef>)
    requires NoDup(NamesAll(roots))
    ensures r.Ok? <==> forall x :: x in WantsAll(roots) ==> x in NamesAll(roots)
    ensures r.Err? ==> Undefined(roots, r.error)
    ensures r.Ok? ==>
              var (lists, values) := r.value;
              && |values| == |roots|
              && (forall i, n: nat :: 0 <= i < |roots| ==>
                    GivenView(roots[i], DefsAll(roots), n) == HeapView(values[i], lists, n))
              && (exists home :: AllInHeap(roots, values, lists, home))
              && EachOnce(HeapNodesAll(roots, values, lists), |lists|)
  {
    hide *;
    var info := ExtractInitInfo(roots);
    if info.Err? {
      return Err(info.error);
    }
    ghost var refs :| LinkOf(roots, info.value, refs);
    LinkInBounds(roots, info.value, refs);
    var lists, values := FromInit(info.value);
    LoadedGraph(roots, info.value, refs, lists);
    return Ok((lists, values));
  }

  lemma LoadedGraph(roots: seq<Given>, info: InitInfo, refs: map<nat, nat>, lists: seq<seq<Value>>)
    requires LinkOf(roots, info, refs) && Loaded(info.refs, lists)
    ensures var values := ValuesOf(info.refs, info.roots);
            && |values| == |roots|
            && (forall i, n: nat :: 0 <= i < |roots| ==>
                  GivenView(roots[i], DefsAll(roots), n) == HeapView(values[i], lists, n))
            && (exists home :: AllInHeap(roots, values, lists, home))
            && EachOnce(HeapNodesAll(roots, values, lists), |lists|)
  {
    hide NoDup, Rep, InHeap, ListsBefore, GivenView, HeapView, Claims, HeapNodesAll, NodesAll, EachOnce, DefsAll;
    hide HomesHold;
    var table := info.refs;
    var values := ValuesOf(table, info.roots);
    var home := Homes(table, refs);
    LinkInBounds(roots, info, refs);
    RootsInHeap(roots, info.roots, table, lists, refs);
    assert AllInHeap(roots, values, lists, home);
    HomesThere(roots, info, refs, lists);
    forall i, n: nat | 0 <= i < |roots|
      ensures GivenView(roots[i], DefsAll(roots), n) == HeapView(values[i], lists, n)
    {
      ViewsAgree(roots[i], values[i], DefsAll(roots), lists, home, n);
    }
    AllNodesRank(roots, info.roots, table, lists, refs);
    RanksEachOnce(table, NodesAll(roots, info.roots, Filled(table)));
  }

  lemma RootsInHeap(s: seq<Given>, ivs: seq<Init>, table: seq<RefValue>, lists: seq<seq<Value>>, refs: map<nat, nat>)
    requires RepAll(s, ivs, Filled(table), refs) && Loaded(table, lists) && RefsThere(Filled(table), refs)
    ensures AllInHeap(s, ValuesOf(table, ivs), lists, Homes(table, refs))
  {
    hide Rep, InHeap, Loaded, ListsBefore, ValueOf;
    forall j | 0 <= j < |s| ensures InHeap(s[j], ValuesOf(table, ivs)[j], lists, Homes(table, refs)) {
      LoadedRep(s[j], ivs[j], table, lists, refs);
    }
  }

  lemma HomesThere(roots: seq<Given>, info: InitInfo, refs: map<nat, nat>, lists: seq<seq<Value>>)
    requires LinkOf(roots, info, refs) && Loaded(info.refs, lists) && RefsThere(Filled(info.refs), refs)
    ensures HomesHold(DefsAll(roots), lists, Homes(info.refs, refs))
  {
    hide NoDup, Rep, RepAll, AllInHeap, Claims, NodesAll, DefsAll, ListsBefore;
    var table := info.refs;
    var defs := DefsAll(roots);
    DefsNamesAll(roots);
    DefsRepAll(roots, info.roots, Filled(table), refs);
    forall r | r in refs
      ensures r in defs && ListsBefore(table, refs[r]) < |lists|
              && AllInHeap(defs[r], lists[ListsBefore(table, refs[r])], lists, Homes(table, refs))
    {
      RootsInHeap(defs[r], table[refs[r]].items, table, lists, refs);
    }
  }
}
