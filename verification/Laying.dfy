/** Bodies laid one behind the other: they fill the code, and every instruction of it gets one level. */
module Laying {
  import opened Common
  import opened Bytecode
  import opened Machine
  import opened Ast
  import opened Source
  import opened Codegen
  import opened Simulation
  import opened Levels
  import opened CodeLevels

  /** Levels for the instructions of a program that its code keeps to: control never leaves them, and they put every
      body that can be called on the ground. */
  ghost predicate Governs(I: Image, all: iset<(nat, Level)>) {
    && (forall pos, l :: (pos, l) in all ==> pos < |I.slots| && Proper(l) && Flows(I.p.fns, I.slots[pos], pos, l, all))
    && (forall k :: k in I.p.fns && k in I.fnEntry ==> (I.fnEntry[k], GROUND) in all)
    && (forall pos :: 0 <= pos < |I.slots| && I.slots[pos].ClosureHole? && pos in I.bodyEntry ==>
          (I.bodyEntry[pos], GROUND) in all)
  }

  /** The statements of a script, a custom block or a closure. */
  datatype Body = Body(ent: Option<nat>, upvars: seq<Str>, stmts: seq<Stmt>)

  function TotalLen(bodies: seq<Body>): nat
    decreases |bodies|
  {
    if bodies == [] then 0
    else
      var last := bodies[|bodies| - 1];
      TotalLen(bodies[..|bodies| - 1]) + BodyLen(last.upvars, last.stmts)
  }

  predicate StandsAt(fns: FnTable, slots: seq<Slot>, b: Body, pc: nat) {
    BodyAt(Scope(fns, b.ent), slots, b.upvars, b.stmts, pc)
  }

  /** Code is these bodies, one behind the other, and nothing else. */
  ghost predicate BackToBack(fns: FnTable, slots: seq<Slot>, bodies: seq<Body>) {
    && |slots| == TotalLen(bodies)
    && forall i :: 0 <= i < |bodies| ==> StandsAt(fns, slots, bodies[i], TotalLen(bodies[..i]))
  }

  ghost predicate MadeOfBodies(fns: FnTable, slots: seq<Slot>) {
    exists bodies :: BackToBack(fns, slots, bodies)
  }

  /** Code is made of bodies, and keeps to one level for each instruction. */
  ghost predicate LaidOut(fns: FnTable, slots: seq<Slot>, levels: seq<Level>) {
    Leveled(fns, slots, levels) && MadeOfBodies(fns, slots)
  }

  ghost predicate LeveledAt(fns: FnTable, slots: seq<Slot>, levels: seq<Level>, pos: nat)
    requires pos < |slots| == |levels|
  {
    Proper(levels[pos]) && Flows(fns, slots[pos], pos, levels[pos], Cells(levels, 0))
  }

  /** Code keeps to one level for each instruction. */
  ghost predicate Leveled(fns: FnTable, slots: seq<Slot>, levels: seq<Level>) {
    |levels| == |slots| && forall pos :: 0 <= pos < |slots| ==> LeveledAt(fns, slots, levels, pos)
  }

  predicate Grounded(levels: seq<Level>, pos: nat) {
    pos < |levels| && levels[pos] == GROUND
  }

  lemma CellsLonger(a: seq<Level>, b: seq<Level>)
    ensures Cells(a, 0) <= Cells(a + b, 0) && Cells(b, |a|) <= Cells(a + b, 0)
  {
    forall q: nat, l: Level | (q, l) in Cells(a, 0) ensures (q, l) in Cells(a + b, 0) {
      assert (a + b)[q - 0] == a[q - 0];
    }
    forall q: nat, l: Level | (q, l) in Cells(b, |a|) ensures (q, l) in Cells(a + b, 0) {
      assert (a + b)[q - 0] == b[q - |a|];
    }
  }

  /** A body appended to laid code. */
  lemma BodyLeveled(g: Scope, s: seq<Slot>, t: seq<Slot>, levels: seq<Level>, upvars: seq<Str>, body: seq<Stmt>)
    requires Leveled(g.fns, s, levels) && s <= t && |t| == |s| + BodyLen(upvars, body)
             && BodyAt(g, t, upvars, body, |s|)
    ensures var more := levels + BodyLevels(upvars, body); Leveled(g.fns, t, more) && Grounded(more, |s|)
  {
    hide BodyAt, BodyLevels, StmtsLen, Flows, Proper, Cells;
    var ls := BodyLevels(upvars, body);
    var more := levels + ls;
    BodySteady(g, t, upvars, body, |s|);
    CellsLonger(levels, ls);
    assert |ls| > 0 && more[|s|] == ls[0];
    forall pos | 0 <= pos < |t| ensures LeveledAt(g.fns, t, more, pos) {
      if pos < |s| {
        assert LeveledAt(g.fns, s, levels, pos);
        FlowsMore(g.fns, t[pos], pos, more[pos], Cells(levels, 0), Cells(more, 0));
      } else {
        assert Stays(g.fns, t, ls, |s|, pos, Cells(ls, |s|));
        FlowsMore(g.fns, t[pos], pos, more[pos], Cells(ls, |s|), Cells(more, 0));
      }
    }
  }

  lemma NothingLaid(fns: FnTable)
    ensures LaidOut(fns, [], [])
  {
    assert BackToBack(fns, [], []);
  }

  lemma LeveledGoverns(I: Image, levels: seq<Level>)
    requires Leveled(I.p.fns, I.slots, levels)
    requires forall k :: k in I.p.fns && k in I.fnEntry ==> Grounded(levels, I.fnEntry[k])
    requires forall pos :: pos in I.bodyEntry ==> Grounded(levels, I.bodyEntry[pos])
    ensures Governs(I, Cells(levels, 0))
  {
    hide Flows, Proper;
    forall pos, l | (pos, l) in Cells(levels, 0)
      ensures pos < |I.slots| && Proper(l) && Flows(I.p.fns, I.slots[pos], pos, l, Cells(levels, 0))
    {
      assert LeveledAt(I.p.fns, I.slots, levels, pos);
    }
  }
}
