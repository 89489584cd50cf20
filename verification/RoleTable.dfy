/** Which custom block a name stands for in a role: the table that calls are resolved with, said of the project. */
module RoleTable {
  import opened Common
  import opened Ast
  import opened Source
  import opened Compiler

  /** The custom blocks of an entity, or the global ones. */
  function BlocksOf(role: Role, ent: Option<nat>): seq<Function> {
    if ent.None? then role.funcs else if ent.value < |role.entities| then role.entities[ent.value].funcs else []
  }

  /** The last one of this name: a later one replaces an earlier one. */
  ghost predicate LastNamed(fs: seq<Function>, name: Str, i: nat) {
    i < |fs| && fs[i].name == name && forall j :: i < j < |fs| ==> fs[j].name != name
  }

  ghost predicate LastKeyed(ds: seq<Decl>, key: (Option<nat>, Str), i: nat) {
    i < |ds| && KeyOf(ds[i]) == key && forall j :: i < j < |ds| ==> KeyOf(ds[j]) != key
  }

  lemma {:induction false} TableIs(ds: seq<Decl>, key: (Option<nat>, Str))
    ensures key in TableOf(ds) <==> exists i: nat :: LastKeyed(ds, key, i)
    ensures forall i: nat :: LastKeyed(ds, key, i) ==> key in TableOf(ds) && TableOf(ds)[key] == ds[i].fn
    decreases |ds|
  {
    hide KeyOf;
    if ds != [] {
      var n := |ds| - 1;
      TableIs(ds[..n], key);
      if KeyOf(ds[n]) == key {
        assert LastKeyed(ds, key, n);
      } else {
        forall i: nat ensures LastKeyed(ds, key, i) <==> LastKeyed(ds[..n], key, i) {
          FrontKeyed(ds, key, i);
        }
      }
    }
  }

  lemma FrontKeyed(ds: seq<Decl>, key: (Option<nat>, Str), i: nat)
    requires ds != [] && KeyOf(ds[|ds| - 1]) != key
    ensures LastKeyed(ds, key, i) <==> LastKeyed(ds[..|ds| - 1], key, i)
  {
    hide KeyOf;
    var front := ds[..|ds| - 1];
    if LastKeyed(front, key, i) {
      forall j | i < j < |ds| ensures KeyOf(ds[j]) != key {
        assert j < |front| ==> front[j] == ds[j];
      }
    }
    if LastKeyed(ds, key, i) {
      forall j | i < j < |front| ensures KeyOf(front[j]) != key {
        assert front[j] == ds[j];
      }
    }
  }

  /** Declarations of other entities do not matter. */
  lemma Amid(pre: seq<Decl>, mid: seq<Decl>, post: seq<Decl>, ent: Option<nat>, name: Str, i: nat)
    requires forall d :: d in pre || d in post ==> d.fn.ent != ent
    ensures LastKeyed(mid, (ent, name), i) ==> LastKeyed(pre + mid + post, (ent, name), |pre| + i)
    ensures LastKeyed(pre + mid + post, (ent, name), i) ==> |pre| <= i && LastKeyed(mid, (ent, name), i - |pre|)
  {
    var all, key := pre + mid + post, (ent, name);
    assert forall j :: 0 <= j < |pre| ==> all[j] in pre;
    assert forall j :: 0 <= j < |mid| ==> all[|pre| + j] == mid[j];
    assert forall j :: |pre| + |mid| <= j < |all| ==> all[j] == post[j - |pre| - |mid|] && all[j] in post;
    if LastKeyed(mid, key, i) {
      forall j | |pre| + i < j < |all| ensures KeyOf(all[j]) != key {
        if j < |pre| + |mid| {
          assert all[j] == mid[j - |pre|];
        } else {
          assert all[j] in post;
        }
      }
    }
    if LastKeyed(all, key, i) {
      assert all[i] !in pre && all[i] !in post;
      assert |pre| <= i < |pre| + |mid|;
      forall j | i - |pre| < j < |mid| ensures KeyOf(mid[j]) != key {
        assert all[|pre| + j] == mid[j];
      }
    }
  }

  lemma {:induction false} EntityAmid(es: seq<Entity>, k: nat, e: nat) returns (pre: seq<Decl>, post: seq<Decl>)
    requires k <= e < |es|
    ensures EntityDecls(es, k) == pre + Decls(es[e].funcs, Some(e)) + post
    ensures forall d :: d in pre || d in post ==> d.fn.ent.Some? && d.fn.ent != Some(e)
    decreases |es| - k
  {
    if k == e {
      pre, post := [], EntityDecls(es, k + 1);
      EntitiesFrom(es, k + 1);
      assert EntityDecls(es, k) == [] + Decls(es[e].funcs, Some(e)) + post;
    } else {
      var rest, last := EntityAmid(es, k + 1, e);
      var own := Decls(es[k].funcs, Some(k));
      pre, post := own + rest, last;
      assert own + (rest + Decls(es[e].funcs, Some(e)) + last) == own + rest + Decls(es[e].funcs, Some(e)) + last;
    }
  }

  lemma {:induction false} EntitiesFrom(es: seq<Entity>, k: nat)
    requires k <= |es|
    ensures forall d :: d in EntityDecls(es, k) ==> d.fn.ent.Some? && k <= d.fn.ent.value < |es|
    decreases |es| - k
  {
    if k < |es| {
      EntitiesFrom(es, k + 1);
    }
  }

  /** All declarations, with those of one owner in the middle. */
  lemma OwnAmid(role: Role, ent: Option<nat>) returns (pre: seq<Decl>, post: seq<Decl>)
    ensures AllDecls(role) == pre + Decls(BlocksOf(role, ent), ent) + post
    ensures forall d :: d in pre || d in post ==> d.fn.ent != ent
  {
    hide EntityDecls;
    EntitiesFrom(role.entities, 0);
    var globals := Decls(role.funcs, None);
    if ent.None? {
      pre, post := [], EntityDecls(role.entities, 0);
      assert AllDecls(role) == [] + globals + post;
    } else if ent.value < |role.entities| {
      var rest, last := EntityAmid(role.entities, 0, ent.value);
      pre, post := globals + rest, last;
      var own := Decls(BlocksOf(role, ent), ent);
      assert globals + (rest + own + last) == globals + rest + own + last;
    } else {
      pre, post := AllDecls(role), [];
      assert AllDecls(role) == pre + [] + post;
    }
  }

  /** The table of a role has, for every owner and name, the last block of this owner with this name, as it is written;
      and it has nothing else. */
  lemma TableOfRole(role: Role, ent: Option<nat>, name: Str)
    ensures (ent, name) in TableOf(AllDecls(role)) <==> exists i: nat :: LastNamed(BlocksOf(role, ent), name, i)
    ensures forall i: nat :: LastNamed(BlocksOf(role, ent), name, i) ==>
              var f := BlocksOf(role, ent)[i];
              && (ent, name) in TableOf(AllDecls(role))
              && TableOf(AllDecls(role))[(ent, name)] == Fn(ent, f.params, f.upvars, f.body)
  {
    hide AllDecls, TableOf;
    var fs, ds, key := BlocksOf(role, ent), AllDecls(role), (ent, name);
    var mid := Decls(fs, ent);
    var pre, post := OwnAmid(role, ent);
    TableIs(ds, key);
    forall i: nat ensures LastNamed(fs, name, i) <==> LastKeyed(mid, key, i) {
      KeyedIsNamed(fs, ent, name, i);
    }
    forall i: nat | LastNamed(fs, name, i)
      ensures key in TableOf(ds) && TableOf(ds)[key] == Fn(ent, fs[i].params, fs[i].upvars, fs[i].body)
    {
      Amid(pre, mid, post, ent, name, i);
      assert ds[|pre| + i] == mid[i];
    }
    if key in TableOf(ds) {
      var i: nat :| LastKeyed(ds, key, i);
      Amid(pre, mid, post, ent, name, i);
      assert LastNamed(fs, name, i - |pre|);
    }
  }

  lemma KeyedIsNamed(fs: seq<Function>, ent: Option<nat>, name: Str, i: nat)
    ensures LastNamed(fs, name, i) <==> LastKeyed(Decls(fs, ent), (ent, name), i)
  {
  }
}
