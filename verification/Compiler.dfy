/** Compiling a whole role: every custom block, every script, every closure, and the linking of calls. */
module Compiler {
  import opened Common
  import opened Bytecode
  import opened Layout
  import opened Values
  import opened Machine
  import opened Tokens
  import opened Ast
  import opened Source
  import opened Codegen
  import opened Supported
  import opened Frames
  import opened Builder
  import opened Simulation
  import opened Levels
  import opened CodeLevels
  import opened Laying

  datatype Function = Function(name: Str, params: seq<Str>, upvars: seq<Str>, body: seq<Stmt>)

  datatype Entity = Entity(funcs: seq<Function>, scripts: seq<seq<Stmt>>)

  datatype Role = Role(funcs: seq<Function>, entities: seq<Entity>)

  /** A custom block of an entity, or of no entity if it is global. */
  datatype Decl = Decl(name: Str, fn: Fn)

  function KeyOf(d: Decl): (Option<nat>, Str) {
    (d.fn.ent, d.name)
  }

  function Declare(f: Function, ent: Option<nat>): Decl {
    Decl(f.name, Fn(ent, f.params, f.upvars, f.body))
  }

  function Decls(fs: seq<Function>, ent: Option<nat>): (r: seq<Decl>)
    ensures |r| == |fs|
    ensures forall i :: 0 <= i < |fs| ==> r[i] == Declare(fs[i], ent)
  {
    seq(|fs|, i requires 0 <= i < |fs| => Declare(fs[i], ent))
  }

  /** All custom blocks in the order they are compiled, from entity `k` on. */
  function EntityDecls(es: seq<Entity>, k: nat): seq<Decl>
    requires k <= |es|
    decreases |es| - k
  {
    if k == |es| then [] else Decls(es[k].funcs, Some(k)) + EntityDecls(es, k + 1)
  }

  function AllDecls(role: Role): seq<Decl> {
    Decls(role.funcs, None) + EntityDecls(role.entities, 0)
  }

  /** The table a sequence of declarations makes; a later one of the same name replaces an earlier one. */
  function TableOf(ds: seq<Decl>): (t: FnTable)
    ensures forall k :: k in t ==> t[k].ent == k.0
  {
    if ds == [] then map[] else TableOf(ds[..|ds| - 1])[KeyOf(ds[|ds| - 1]) := ds[|ds| - 1].fn]
  }

  predicate Compilable(role: Role) {
    var t := TableOf(AllDecls(role));
    && (forall i :: 0 <= i < |role.funcs| ==> SupportedBody(Scope(t, None), role.funcs[i].body))
    && forall e :: 0 <= e < |role.entities| ==> EntityCompilable(t, role.entities[e], e)
  }

  predicate EntityCompilable(t: FnTable, entity: Entity, e: nat) {
    && (forall i :: 0 <= i < |entity.funcs| ==> SupportedBody(Scope(t, Some(e)), entity.funcs[i].body))
    && (forall i :: 0 <= i < |entity.scripts| ==> SupportedBody(Scope(t, Some(e)), entity.scripts[i]))
  }

  // ----- what stays in place while code is appended -----

  lemma BodyGrows(g: Scope, s: seq<Slot>, t: seq<Slot>, upvars: seq<Str>, body: seq<Stmt>, pc: nat)
    requires BodyAt(g, s, upvars, body, pc) && s <= t
    ensures BodyAt(g, t, upvars, body, pc)
  {
    hide StmtsAt, StmtsLen;
    BodyKept(g, s, t, upvars, body, pc);
  }

  ghost predicate DeclAt(fns: FnTable, slots: seq<Slot>, d: Decl, pos: nat) {
    BodyAt(Scope(fns, d.fn.ent), slots, d.fn.upvars, d.fn.body, pos)
  }

  ghost predicate DeclsAt(fns: FnTable, slots: seq<Slot>, funcs: seq<(Decl, nat)>) {
    forall i :: 0 <= i < |funcs| ==> DeclAt(fns, slots, funcs[i].0, funcs[i].1)
  }

  ghost predicate ScriptsAt(fns: FnTable, slots: seq<Slot>, entity: Entity, e: nat, at_: seq<nat>) {
    |at_| <= |entity.scripts| && forall i :: 0 <= i < |at_| ==>
      BodyAt(Scope(fns, Some(e)), slots, [], entity.scripts[i], at_[i])
  }

  ghost predicate AllScriptsAt(fns: FnTable, slots: seq<Slot>, es: seq<Entity>, at_: seq<seq<nat>>) {
    |at_| <= |es| && forall e :: 0 <= e < |at_| ==>
      |at_[e]| == |es[e].scripts| && ScriptsAt(fns, slots, es[e], e, at_[e])
  }

  ghost predicate ClosuresAt(fns: FnTable, slots: seq<Slot>, bodies: map<nat, nat>) {
    forall p :: p in bodies ==>
      p < |slots| && slots[p].ClosureHole? && BodyAt(Scope(fns, slots[p].ent), slots, [], slots[p].body, bodies[p])
  }

  ghost predicate Whole(slots: seq<Slot>) {
    forall p :: 0 <= p < |slots| ==> !slots[p].Pending?
  }

  lemma DeclsGrow(fns: FnTable, s: seq<Slot>, t: seq<Slot>, funcs: seq<(Decl, nat)>)
    requires DeclsAt(fns, s, funcs) && s <= t
    ensures DeclsAt(fns, t, funcs)
  {
    hide BodyAt;
    forall i | 0 <= i < |funcs| ensures DeclAt(fns, t, funcs[i].0, funcs[i].1) {
      assert DeclAt(fns, s, funcs[i].0, funcs[i].1);
      BodyGrows(Scope(fns, funcs[i].0.fn.ent), s, t, funcs[i].0.fn.upvars, funcs[i].0.fn.body, funcs[i].1);
    }
  }

  lemma ScriptsGrow(fns: FnTable, s: seq<Slot>, t: seq<Slot>, entity: Entity, e: nat, at_: seq<nat>)
    requires ScriptsAt(fns, s, entity, e, at_) && s <= t
    ensures ScriptsAt(fns, t, entity, e, at_)
  {
    hide BodyAt;
    forall i | 0 <= i < |at_| ensures BodyAt(Scope(fns, Some(e)), t, [], entity.scripts[i], at_[i]) {
      BodyGrows(Scope(fns, Some(e)), s, t, [], entity.scripts[i], at_[i]);
    }
  }

  lemma AllScriptsGrow(fns: FnTable, s: seq<Slot>, t: seq<Slot>, es: seq<Entity>, at_: seq<seq<nat>>)
    requires AllScriptsAt(fns, s, es, at_) && s <= t
    ensures AllScriptsAt(fns, t, es, at_)
  {
    hide ScriptsAt;
    forall e | 0 <= e < |at_| ensures ScriptsAt(fns, t, es[e], e, at_[e]) {
      ScriptsGrow(fns, s, t, es[e], e, at_[e]);
    }
  }

  lemma ClosuresGrow(fns: FnTable, s: seq<Slot>, t: seq<Slot>, bodies: map<nat, nat>)
    requires ClosuresAt(fns, s, bodies) && s <= t
    ensures ClosuresAt(fns, t, bodies)
  {
    hide BodyAt;
    forall p | p in bodies
      ensures p < |t| && t[p].ClosureHole? && BodyAt(Scope(fns, t[p].ent), t, [], t[p].body, bodies[p])
    {
      assert t[p] == s[p];
      BodyGrows(Scope(fns, s[p].ent), s, t, [], s[p].body, bodies[p]);
    }
  }

  lemma WholeGrows(s: seq<Slot>, t: seq<Slot>, n: nat)
    requires Whole(s) && Grown(s, t, n)
    ensures Whole(t) && s <= t
  {
  }

  // ----- one level for every instruction -----

  ghost predicate DeclsGrounded(levels: seq<Level>, funcs: seq<(Decl, nat)>) {
    forall i :: 0 <= i < |funcs| ==> Grounded(levels, funcs[i].1)
  }

  ghost predicate ScriptsGrounded(levels: seq<Level>, at_: seq<nat>) {
    forall i :: 0 <= i < |at_| ==> Grounded(levels, at_[i])
  }

  ghost predicate AllScriptsGrounded(levels: seq<Level>, at_: seq<seq<nat>>) {
    forall e :: 0 <= e < |at_| ==> ScriptsGrounded(levels, at_[e])
  }

  ghost predicate ClosuresGrounded(levels: seq<Level>, bodies: map<nat, nat>) {
    forall p :: p in bodies ==> Grounded(levels, bodies[p])
  }

  lemma ScriptsGroundedLonger(a: seq<Level>, b: seq<Level>, at_: seq<seq<nat>>)
    requires a <= b && AllScriptsGrounded(a, at_)
    ensures AllScriptsGrounded(b, at_)
  {
    AllGroundedLonger(a, b, [], at_, map[]);
  }

  lemma DeclsGroundedLonger(a: seq<Level>, b: seq<Level>, funcs: seq<(Decl, nat)>)
    requires a <= b && DeclsGrounded(a, funcs)
    ensures DeclsGrounded(b, funcs)
  {
  }

  lemma AllGroundedLonger(a: seq<Level>, b: seq<Level>, funcs: seq<(Decl, nat)>, at_: seq<seq<nat>>,
                          bodies: map<nat, nat>)
    requires a <= b && DeclsGrounded(a, funcs) && AllScriptsGrounded(a, at_) && ClosuresGrounded(a, bodies)
    ensures DeclsGrounded(b, funcs) && AllScriptsGrounded(b, at_) && ClosuresGrounded(b, bodies)
  {
    forall e | 0 <= e < |at_| ensures ScriptsGrounded(b, at_[e]) {
      assert ScriptsGrounded(a, at_[e]);
    }
  }

  // ----- compiling -----

  /** Compiles custom blocks, remembering where each starts. */
  method CompileFuncs(b: Builder, fs: seq<Function>, ent: Option<nat>, funcs0: seq<(Decl, nat)>,
                      ghost levels0: seq<Level>)
    returns (funcs: seq<(Decl, nat)>, ghost levels: seq<Level>)
    requires LaidOut(b.fns, b.slots, levels0) && DeclsGrounded(levels0, funcs0)
    requires b.Valid() && Aimed(b.slots, |b.slots|) && Whole(b.slots) && b.bodies == map[]
             && DeclsAt(b.fns, b.slots, funcs0)
    requires forall i :: 0 <= i < |fs| ==> SupportedBody(Scope(b.fns, ent), fs[i].body)
    modifies b`ins, b`slots, b`callHoles, b`closureHoles
    ensures b.Valid() && Aimed(b.slots, |b.slots|) && Whole(b.slots) && old(b.slots) <= b.slots
            && DeclsAt(b.fns, b.slots, funcs)
    ensures |funcs| == |funcs0| + |fs| && funcs[..|funcs0|] == funcs0
    ensures forall i :: 0 <= i < |fs| ==> funcs[|funcs0| + i].0 == Declare(fs[i], ent)
    ensures LaidOut(b.fns, b.slots, levels) && levels0 <= levels && DeclsGrounded(levels, funcs)
  {
    hide BodyAt, SupportedBody, Builder.Valid, Aimed, Grown, Whole, DeclAt, LaidOut, BodyLevels, LambdasStmt;
    hide Recorded, StmtsLen;
    funcs, levels := funcs0, levels0;
    for i := 0 to |fs|
      invariant LaidOut(b.fns, b.slots, levels) && levels0 <= levels && DeclsGrounded(levels, funcs)
      invariant b.Valid() && Aimed(b.slots, |b.slots|) && Whole(b.slots) && old(b.slots) <= b.slots
                && DeclsAt(b.fns, b.slots, funcs)
      invariant |funcs| == |funcs0| + i && funcs[..|funcs0|] == funcs0
      invariant forall k :: 0 <= k < i ==> funcs[|funcs0| + k].0 == Declare(fs[k], ent)
    {
      ghost var s := b.slots;
      var d := Declare(fs[i], ent);
      var pos := b.Here();
      b.AppendStmtsRet(fs[i].upvars, fs[i].body, ent);
      WholeGrows(s, b.slots, BodyLen(fs[i].upvars, fs[i].body));
      DeclsGrow(b.fns, s, b.slots, funcs);
      DeclHere(b.fns, b.slots, fs[i], ent, pos);
      BodyHere(Scope(b.fns, ent), s, b.slots, levels, fs[i].upvars, fs[i].body);
      levels := levels + BodyLevels(fs[i].upvars, fs[i].body);
      funcs := funcs + [(d, pos)];
    }
  }

  /** An appended body gives the new instructions their levels. */
  lemma BodyHere(g: Scope, s: seq<Slot>, t: seq<Slot>, levels: seq<Level>, upvars: seq<Str>, body: seq<Stmt>)
    requires LaidOut(g.fns, s, levels) && Grown(s, t, BodyLen(upvars, body)) && Whole(s)
             && BodyAt(g, t, upvars, body, |s|)
    ensures var more := levels + BodyLevels(upvars, body); LaidOut(g.fns, t, more) && Grounded(more, |s|)
  {
    hide BodyAt, BodyLen, Leveled, BodyLevels, MadeOfBodies;
    WholeGrows(s, t, BodyLen(upvars, body));
    BodyLeveled(g, s, t, levels, upvars, body);
    BodyBehind(g, s, t, upvars, body);
  }

  lemma BodyBehind(g: Scope, s: seq<Slot>, t: seq<Slot>, upvars: seq<Str>, body: seq<Stmt>)
    requires MadeOfBodies(g.fns, s) && s <= t && |t| == |s| + BodyLen(upvars, body)
             && BodyAt(g, t, upvars, body, |s|)
    ensures MadeOfBodies(g.fns, t)
  {
    hide BodyAt, BodyLen;
    var bodies :| BackToBack(g.fns, s, bodies);
    var more := bodies + [Body(g.ent, upvars, body)];
    assert more[..|bodies|] == bodies;
    forall i | 0 <= i < |more| ensures StandsAt(g.fns, t, more[i], TotalLen(more[..i])) {
      if i < |bodies| {
        assert more[..i] == bodies[..i] && StandsAt(g.fns, s, bodies[i], TotalLen(bodies[..i]));
        BodyGrows(Scope(g.fns, bodies[i].ent), s, t, bodies[i].upvars, bodies[i].stmts, TotalLen(bodies[..i]));
      }
    }
    assert BackToBack(g.fns, t, more);
  }

  lemma DeclHere(fns: FnTable, slots: seq<Slot>, f: Function, ent: Option<nat>, pos: nat)
    requires BodyAt(Scope(fns, ent), slots, f.upvars, f.body, pos)
    ensures DeclAt(fns, slots, Declare(f, ent), pos)
  {
    hide BodyAt;
  }

  method CompileScripts(b: Builder, entity: Entity, e: nat, ghost levels0: seq<Level>)
    returns (at_: seq<nat>, ghost levels: seq<Level>)
    requires LaidOut(b.fns, b.slots, levels0)
    requires b.Valid() && Aimed(b.slots, |b.slots|) && Whole(b.slots)
    requires forall i :: 0 <= i < |entity.scripts| ==> SupportedBody(Scope(b.fns, Some(e)), entity.scripts[i])
    modifies b`ins, b`slots, b`callHoles, b`closureHoles
    ensures b.Valid() && Aimed(b.slots, |b.slots|) && Whole(b.slots) && old(b.slots) <= b.slots
    ensures |at_| == |entity.scripts| && ScriptsAt(b.fns, b.slots, entity, e, at_)
    ensures LaidOut(b.fns, b.slots, levels) && levels0 <= levels && ScriptsGrounded(levels, at_)
  {
    hide BodyAt, SupportedBody, Builder.Valid, Aimed, Grown, Whole, LaidOut, BodyLevels, LambdasStmt, Recorded;
    hide StmtsLen;
    at_, levels := [], levels0;
    for i := 0 to |entity.scripts|
      invariant LaidOut(b.fns, b.slots, levels) && levels0 <= levels && ScriptsGrounded(levels, at_)
      invariant b.Valid() && Aimed(b.slots, |b.slots|) && Whole(b.slots) && old(b.slots) <= b.slots
      invariant |at_| == i && ScriptsAt(b.fns, b.slots, entity, e, at_)
    {
      ghost var s := b.slots;
      var pos := b.Here();
      b.AppendStmtsRet([], entity.scripts[i], Some(e));
      WholeGrows(s, b.slots, BodyLen([], entity.scripts[i]));
      ScriptsGrow(b.fns, s, b.slots, entity, e, at_);
      BodyHere(Scope(b.fns, Some(e)), s, b.slots, levels, [], entity.scripts[i]);
      levels := levels + BodyLevels([], entity.scripts[i]);
      at_ := at_ + [pos];
    }
  }

  /** Compiles the bodies of closures, and of the closures in them, until none is left. */
  method CompileClosures(b: Builder, ghost levels0: seq<Level>) returns (ghost levels: seq<Level>)
    requires LaidOut(b.fns, b.slots, levels0) && ClosuresGrounded(levels0, b.bodies)
    requires b.Valid() && Aimed(b.slots, |b.slots|) && Whole(b.slots) && ClosuresAt(b.fns, b.slots, b.bodies)
    modifies b`ins, b`slots, b`callHoles, b`closureHoles, b`bodies
    ensures b.Valid() && Aimed(b.slots, |b.slots|) && Whole(b.slots) && ClosuresAt(b.fns, b.slots, b.bodies)
    ensures b.closureHoles == [] && old(b.slots) <= b.slots
    ensures LaidOut(b.fns, b.slots, levels) && levels0 <= levels && ClosuresGrounded(levels, b.bodies)
  {
    hide BodyAt, SupportedBody, Builder.Valid, Aimed, Grown, Whole, ClosuresAt, LaidOut, BodyLevels, LambdasStmt;
    hide Recorded, StmtsLen;
    levels := levels0;
    while b.closureHoles != []
      invariant LaidOut(b.fns, b.slots, levels) && levels0 <= levels && ClosuresGrounded(levels, b.bodies)
      invariant b.Valid() && Aimed(b.slots, |b.slots|) && Whole(b.slots) && ClosuresAt(b.fns, b.slots, b.bodies)
                && old(b.slots) <= b.slots
      decreases Debt(b.closureHoles)
    {
      ghost var s, bodies := b.slots, b.bodies;
      var c := b.LinkClosure();
      b.AppendStmtsRet([], c.body, c.ent);
      WholeGrows(s, b.slots, BodyLen([], c.body));
      ClosuresGrow(b.fns, s, b.slots, bodies);
      ClosureHere(b.fns, b.slots, bodies, c.pos, |s|);
      BodyHere(Scope(b.fns, c.ent), s, b.slots, levels, [], c.body);
      levels := levels + BodyLevels([], c.body);
    }
  }

  lemma ClosureHere(fns: FnTable, slots: seq<Slot>, bodies: map<nat, nat>, p: nat, entry: nat)
    requires ClosuresAt(fns, slots, bodies) && p < |slots| && slots[p].ClosureHole?
    requires BodyAt(Scope(fns, slots[p].ent), slots, [], slots[p].body, entry)
    ensures ClosuresAt(fns, slots, bodies[p := entry])
  {
    hide BodyAt;
  }

  // ----- linking -----

  /** Where each block of the table starts: a later block of the same name wins. */
  method IndexFuncs(funcs: seq<(Decl, nat)>) returns (entry: map<(Option<nat>, Str), nat>, table: FnTable)
    ensures table == TableOf(seq(|funcs|, i requires 0 <= i < |funcs| => funcs[i].0))
    ensures entry.Keys == table.Keys
    ensures forall k :: k in entry ==>
              exists i :: 0 <= i < |funcs| && KeyOf(funcs[i].0) == k && entry[k] == funcs[i].1
                && table[k] == funcs[i].0.fn
  {
    ghost var ds := seq(|funcs|, i requires 0 <= i < |funcs| => funcs[i].0);
    entry, table := map[], map[];
    for i := 0 to |funcs|
      invariant table == TableOf(ds[..i]) && entry.Keys == table.Keys
      invariant forall k :: k in entry ==>
                  exists j :: 0 <= j < i && KeyOf(funcs[j].0) == k && entry[k] == funcs[j].1
                    && table[k] == funcs[j].0.fn
    {
      var d := funcs[i].0;
      entry, table := entry[KeyOf(d) := funcs[i].1], table[KeyOf(d) := d.fn];
      assert ds[..i + 1][..i] == ds[..i] && ds[..i + 1][i] == d;
      assert KeyOf(funcs[i].0) == KeyOf(d);
    }
    assert ds[..|funcs|] == ds;
  }

  /** The instruction a slot becomes. */
  function FinalAt(fns: FnTable, entry: map<(Option<nat>, Str), nat>, bodies: map<nat, nat>, slots: seq<Slot>,
                   p: nat): Option<Instruction>
    requires p < |slots|
  {
    match slots[p]
    case Pending => None
    case Ins(i) => Some(i)
    case CallHole(name, ent) =>
      var k := ResolveKey(fns, ent, name);
      if k.Some? && k.value in entry then Some(Call(entry[k.value], LosslessJoin(fns[k.value].params))) else None
    case ClosureHole(params, captures, _, _) =>
      if p in bodies then Some(MakeClosure(bodies[p], |params|, LosslessJoin(params + captures))) else None
  }

  /** Fills in the calls. */
  method LinkCalls(b: Builder, entry: map<(Option<nat>, Str), nat>, table: FnTable) returns (ins: seq<Instruction>)
    requires b.Valid() && Whole(b.slots) && table == b.fns && entry.Keys == table.Keys && b.closureHoles == []
    ensures |ins| == |b.slots| && forall p :: 0 <= p < |ins| ==>
              FinalAt(table, entry, b.bodies, b.slots, p) == Some(ins[p])
  {
    hide Aims, SupportedBody, LosslessJoin, ResolveKey;
    ghost var slots, bodies := b.slots, b.bodies;
    var code := b.ins;
    ghost var done: set<nat> := {};
    for i := 0 to |b.callHoles|
      invariant |code| == |b.slots|
      invariant forall p :: p in done ==> p < |b.slots| && b.slots[p].CallHole?
      invariant forall j :: 0 <= j < i ==> b.callHoles[j].pos in done
      invariant forall p :: 0 <= p < |code| ==> (p !in done ==> code[p] == b.ins[p])
      invariant forall p :: p in done ==>
                  FinalAt(table, entry, b.bodies, b.slots, p).Some?
                    && code[p] == Real(FinalAt(table, entry, b.bodies, b.slots, p).value)
    {
      var h := b.callHoles[i];
      assert b.slots[h.pos] == CallHole(h.name, h.ent);
      var k := ResolveKey(table, h.ent, h.name);
      assert k.value in entry.Keys;
      code := code[h.pos := Real(Call(entry[k.value], LosslessJoin(table[k.value].params)))];
      done := done + {h.pos};
    }
    forall p | 0 <= p < |code|
      ensures FinalAt(table, entry, b.bodies, b.slots, p).Some?
              && code[p] == Real(FinalAt(table, entry, b.bodies, b.slots, p).value)
    {
      if b.slots[p].CallHole? {
        var i :| 0 <= i < |b.callHoles| && b.callHoles[i].pos == p;
        assert p in done;
      } else if b.slots[p].ClosureHole? {
        assert p in b.bodies;
        assert Mirror(b.ins[p], b.slots[p], Some(b.bodies[p]));
      } else {
        assert Mirror(b.ins[p], b.slots[p], if p in b.bodies then Some(b.bodies[p]) else None);
      }
    }
    ghost var final := seq(|code|, p requires 0 <= p < |slots| => if FinalAt(table, entry, bodies, slots, p).Some?
                           then FinalAt(table, entry, bodies, slots, p).value else Yield);
    ins := Finish(code, final);
  }

  /** The finished list; nothing illegal is left in it. */
  method Finish(code: seq<Internal>, ghost final: seq<Instruction>) returns (ins: seq<Instruction>)
    requires |code| == |final| && forall p :: 0 <= p < |code| ==> code[p] == Real(final[p])
    ensures ins == final
  {
    ins := [];
    for i := 0 to |code|
      invariant ins == final[..i]
    {
      ins := ins + [code[i].ins];
    }
  }

  lemma {:induction false} TableHas(ds: seq<Decl>, i: nat)
    requires i < |ds|
    ensures KeyOf(ds[i]) in TableOf(ds)
    decreases |ds|
  {
    if i < |ds| - 1 {
      TableHas(ds[..|ds| - 1], i);
    }
  }

  /** What linking has achieved. */
  ghost predicate LinkedCode(I: Image, bodies: map<nat, nat>) {
    && |I.ins| == |I.slots|
    && forall p :: 0 <= p < |I.slots| ==> FinalAt(I.p.fns, I.fnEntry, bodies, I.slots, p) == Some(I.ins[p])
  }

  lemma LinkedIsFilled(I: Image, funcs: seq<(Decl, nat)>)
    requires LinkedCode(I, I.bodyEntry) && ClosuresAt(I.p.fns, I.slots, I.bodyEntry) && DeclsAt(I.p.fns, I.slots, funcs)
    requires I.fnEntry.Keys == I.p.fns.Keys && forall k :: k in I.p.fns ==> I.p.fns[k].ent == k.0
    requires forall k :: k in I.fnEntry ==>
               exists i :: 0 <= i < |funcs| && KeyOf(funcs[i].0) == k && I.fnEntry[k] == funcs[i].1
                 && I.p.fns[k] == funcs[i].0.fn
    ensures Filled(I)
  {
    hide BodyAt, ResolveKey, LosslessJoin;
    forall pos | 0 <= pos < |I.slots| ensures FilledAt(I, pos) {
      assert FinalAt(I.p.fns, I.fnEntry, I.bodyEntry, I.slots, pos) == Some(I.ins[pos]);
    }
    forall k | k in I.p.fns
      ensures k in I.fnEntry && BodyAt(Scope(I.p.fns, I.p.fns[k].ent), I.slots, I.p.fns[k].upvars, I.p.fns[k].body,
                                       I.fnEntry[k])
    {
      assert k in I.fnEntry.Keys;
      var i :| 0 <= i < |funcs| && KeyOf(funcs[i].0) == k && I.fnEntry[k] == funcs[i].1 && I.p.fns[k] == funcs[i].0.fn;
      assert DeclAt(I.p.fns, I.slots, funcs[i].0, funcs[i].1);
    }
  }

  lemma BodyInside(g: Scope, slots: seq<Slot>, upvars: seq<Str>, body: seq<Stmt>, pc: nat)
    requires BodyAt(g, slots, upvars, body, pc)
    ensures pc < |slots|
  {
    hide StmtsAt, StmtLen;
  }

  /** Every jump, handler, call and closure has an instruction as its target. */
  lemma FilledAims(I: Image)
    requires Filled(I) && Aimed(I.slots, |I.slots|)
    ensures forall p :: 0 <= p < |I.ins| ==> Aims(I.ins[p], |I.ins|)
  {
    hide BodyAt, LosslessJoin;
    forall p | 0 <= p < |I.ins| ensures Aims(I.ins[p], |I.ins|) {
      assert FilledAt(I, p);
      match I.slots[p] {
        case Ins(i) => assert Aims(I.slots[p].ins, |I.slots|);
        case CallHole(name, ent) =>
          var k := ResolveKey(I.p.fns, ent, name).value;
          BodyInside(Scope(I.p.fns, I.p.fns[k].ent), I.slots, I.p.fns[k].upvars, I.p.fns[k].body, I.fnEntry[k]);
        case ClosureHole(_, _, body, ent) => BodyInside(Scope(I.p.fns, ent), I.slots, [], body, I.bodyEntry[p]);
        case Pending =>
      }
    }
  }

  lemma NothingAt(fns: FnTable)
    ensures Aimed([], 0) && Whole([]) && DeclsAt(fns, [], []) && ClosuresAt(fns, [], map[])
  {
    hide Aims, BodyAt;
  }

  /** Appends the code of a role: blocks and scripts first, then the closures met on the way. */
  method Assemble(b: Builder, role: Role)
    returns (funcs: seq<(Decl, nat)>, scripts: seq<seq<nat>>, ghost levels: seq<Level>)
    requires b.Valid() && b.slots == [] && b.bodies == map[] && b.fns == TableOf(AllDecls(role)) && Compilable(role)
    modifies b`ins, b`slots, b`callHoles, b`closureHoles, b`bodies
    ensures b.Valid() && Aimed(b.slots, |b.slots|) && Whole(b.slots) && b.closureHoles == []
    ensures DeclsAt(b.fns, b.slots, funcs) && ClosuresAt(b.fns, b.slots, b.bodies)
    ensures |funcs| == |AllDecls(role)| && forall i :: 0 <= i < |funcs| ==> funcs[i].0 == AllDecls(role)[i]
    ensures |scripts| == |role.entities| && AllScriptsAt(b.fns, b.slots, role.entities, scripts)
    ensures LaidOut(b.fns, b.slots, levels) && DeclsGrounded(levels, funcs) && AllScriptsGrounded(levels, scripts)
    ensures ClosuresGrounded(levels, b.bodies)
  {
    hide BodyAt, SupportedBody, Aimed, Grown, Whole, DeclAt, DeclsAt, ClosuresAt, AllScriptsAt, ScriptsAt;
    hide Builder.Valid;
    hide EntityDecls, EntityCompilable, TableOf, LaidOut, AllScriptsGrounded;
    NothingAt(b.fns);
    NothingLaid(b.fns);
    funcs, levels := CompileFuncs(b, role.funcs, None, [], []);
    funcs, scripts, levels := CompileEntities(b, role, funcs, levels);
    ghost var s, before := b.slots, levels;
    NoClosures(b.fns, b.slots);
    levels := CompileClosures(b, levels);
    AllGroundedLonger(before, levels, funcs, scripts, map[]);
    AllScriptsGrow(b.fns, s, b.slots, role.entities, scripts);
    DeclsGrow(b.fns, s, b.slots, funcs);
  }

  /** Links what has been assembled. */
  method Link(b: Builder, funcs: seq<(Decl, nat)>, ghost p: Prog, ghost levels: seq<Level>)
    returns (ins: seq<Instruction>, entry: map<(Option<nat>, Str), nat>, ghost I: Image)
    requires b.Valid() && Aimed(b.slots, |b.slots|) && Whole(b.slots) && b.closureHoles == []
    requires DeclsAt(b.fns, b.slots, funcs) && ClosuresAt(b.fns, b.slots, b.bodies) && p.fns == b.fns
    requires b.fns == TableOf(seq(|funcs|, i requires 0 <= i < |funcs| => funcs[i].0))
    requires LaidOut(b.fns, b.slots, levels) && DeclsGrounded(levels, funcs) && ClosuresGrounded(levels, b.bodies)
    ensures I == Image(p, b.slots, ins, entry, b.bodies) && Filled(I)
    ensures forall q :: 0 <= q < |ins| ==> Aims(ins[q], |ins|)
    ensures |levels| == |ins| && Governs(I, Cells(levels, 0)) && MadeOfBodies(p.fns, b.slots)
  {
    hide BodyAt, Aimed, Whole, DeclAt, DeclsAt, ClosuresAt, Builder.Valid, Filled, FilledAt, FinalAt, Aims, Governs;
    hide LeveledAt;
    var table;
    entry, table := IndexFuncs(funcs);
    ins := LinkCalls(b, entry, table);
    I := Image(p, b.slots, ins, entry, b.bodies);
    LinkedIsFilled(I, funcs);
    FilledSize(I);
    FilledAims(I);
    LeveledGoverns(I, levels);
  }

  /** Compiles a role. The result is linked code in which every custom block, script and closure stands
      where the table, the returned positions and the closures say; no illegal instruction is left, and
      every code operand names an instruction. The code is whole bodies, one behind the other, and every
      instruction of it has one level, which its code keeps to. */
  method Compile(role: Role, ghost w: World, ghost outer: Locals)
    returns (ins: seq<Instruction>, entry: map<(Option<nat>, Str), nat>, scripts: seq<seq<nat>>, ghost I: Image,
             ghost levels: seq<Level>)
    requires Compilable(role)
    ensures I.p == Prog(w, outer, TableOf(AllDecls(role))) && I.ins == ins && I.fnEntry == entry && Filled(I)
    ensures forall p :: 0 <= p < |ins| ==> Aims(ins[p], |ins|)
    ensures |scripts| == |role.entities| && AllScriptsAt(I.p.fns, I.slots, role.entities, scripts)
    ensures |levels| == |ins| && Governs(I, Cells(levels, 0)) && AllScriptsGrounded(levels, scripts)
    ensures MadeOfBodies(I.p.fns, I.slots)
  {
    hide *;
    ghost var fns := TableOf(AllDecls(role));
    var b := new Builder(fns);
    var funcs;
    funcs, scripts, levels := Assemble(b, role);
    assert seq(|funcs|, i requires 0 <= i < |funcs| => funcs[i].0) == AllDecls(role);
    ins, entry, I := Link(b, funcs, Prog(w, outer, fns), levels);
  }

  lemma FilledSize(I: Image)
    requires Filled(I)
    ensures |I.ins| == |I.slots|
  {
    hide FilledAt, BodyAt;
  }

  lemma NoClosures(fns: FnTable, slots: seq<Slot>)
    ensures ClosuresAt(fns, slots, map[])
  {
    hide BodyAt;
  }

  method CompileEntities(b: Builder, role: Role, funcs0: seq<(Decl, nat)>, ghost levels0: seq<Level>)
    returns (funcs: seq<(Decl, nat)>, scripts: seq<seq<nat>>, ghost levels: seq<Level>)
    requires LaidOut(b.fns, b.slots, levels0) && DeclsGrounded(levels0, funcs0)
    requires b.Valid() && Aimed(b.slots, |b.slots|) && Whole(b.slots) && b.bodies == map[]
             && DeclsAt(b.fns, b.slots, funcs0)
    requires b.fns == TableOf(AllDecls(role)) && Compilable(role)
    requires |funcs0| == |role.funcs| && forall i :: 0 <= i < |funcs0| ==> funcs0[i].0 == Declare(role.funcs[i], None)
    modifies b`ins, b`slots, b`callHoles, b`closureHoles
    ensures b.Valid() && Aimed(b.slots, |b.slots|) && Whole(b.slots) && DeclsAt(b.fns, b.slots, funcs)
    ensures |funcs| == |AllDecls(role)| && forall i :: 0 <= i < |funcs| ==> funcs[i].0 == AllDecls(role)[i]
    ensures |scripts| == |role.entities| && AllScriptsAt(b.fns, b.slots, role.entities, scripts)
    ensures LaidOut(b.fns, b.slots, levels) && DeclsGrounded(levels, funcs) && AllScriptsGrounded(levels, scripts)
            && b.bodies == map[]
  {
    hide BodyAt, SupportedBody, Aimed, Grown, Whole, DeclAt, DeclsAt, ScriptsAt, Builder.Valid, TableOf, LaidOut;
    hide DeclsGrounded, ScriptsGrounded;
    funcs, scripts, levels := funcs0, [], levels0;
    ghost var all := AllDecls(role);
    for e := 0 to |role.entities|
      invariant b.Valid() && Aimed(b.slots, |b.slots|) && Whole(b.slots) && DeclsAt(b.fns, b.slots, funcs)
      invariant |scripts| == e && AllScriptsAt(b.fns, b.slots, role.entities, scripts)
      invariant LaidOut(b.fns, b.slots, levels) && DeclsGrounded(levels, funcs) && AllScriptsGrounded(levels, scripts)
                && b.bodies == map[]
      invariant |funcs| <= |all| && all == seq(|funcs|, i requires 0 <= i < |funcs| => funcs[i].0)
                + EntityDecls(role.entities, e)
    {
      var entity := role.entities[e];
      assert EntityCompilable(b.fns, entity, e);
      ghost var s, before := b.slots, funcs;
      ghost var levels1 := levels;
      funcs, levels := CompileFuncs(b, entity.funcs, Some(e), funcs, levels);
      ghost var s1 := b.slots;
      var at_;
      ghost var levels2 := levels;
      at_, levels := CompileScripts(b, entity, e, levels);
      ScriptsGroundedLonger(levels1, levels, scripts);
      DeclsGroundedLonger(levels2, levels, funcs);
      DeclsGrow(b.fns, s1, b.slots, funcs);
      AllScriptsGrow(b.fns, s, b.slots, role.entities, scripts);
      scripts := scripts + [at_];
      DeclsNext(role.entities, e, before, funcs, all);
    }
  }

  lemma DeclsNext(es: seq<Entity>, e: nat, before: seq<(Decl, nat)>, funcs: seq<(Decl, nat)>, all: seq<Decl>)
    requires e < |es| && |funcs| == |before| + |es[e].funcs| && funcs[..|before|] == before
    requires forall i :: 0 <= i < |es[e].funcs| ==> funcs[|before| + i].0 == Declare(es[e].funcs[i], Some(e))
    requires all == seq(|before|, i requires 0 <= i < |before| => before[i].0) + EntityDecls(es, e)
    ensures |funcs| <= |all| && all == seq(|funcs|, i requires 0 <= i < |funcs| => funcs[i].0) + EntityDecls(es, e + 1)
  {
    hide EntityDecls, Decls, Declare;
    var a := seq(|before|, i requires 0 <= i < |before| => before[i].0);
    var c := seq(|funcs|, i requires 0 <= i < |funcs| => funcs[i].0);
    var d := Decls(es[e].funcs, Some(e));
    forall i | 0 <= i < |a| ensures c[i] == a[i] {
      assert funcs[i] == funcs[..|before|][i];
    }
    forall i | 0 <= i < |d| ensures c[|a| + i] == d[i] {
      assert funcs[|before| + i].0 == Declare(es[e].funcs[i], Some(e));
    }
    Appended(a, d, c);
    EntityDeclsNext(es, e);
    assert a + (d + EntityDecls(es, e + 1)) == a + d + EntityDecls(es, e + 1);
  }

  lemma Appended(a: seq<Decl>, b: seq<Decl>, c: seq<Decl>)
    requires |c| == |a| + |b| && (forall i :: 0 <= i < |a| ==> c[i] == a[i]) && forall i :: 0 <= i < |b| ==>
               c[|a| + i] == b[i]
    ensures c == a + b
  {
    forall i | 0 <= i < |c| ensures c[i] == (a + b)[i] {
      assert i >= |a| ==> c[|a| + (i - |a|)] == b[i - |a|];
    }
  }

  lemma EntityDeclsNext(es: seq<Entity>, e: nat)
    requires e < |es|
    ensures EntityDecls(es, e) == Decls(es[e].funcs, Some(e)) + EntityDecls(es, e + 1)
  {
    hide Decls;
  }
}
