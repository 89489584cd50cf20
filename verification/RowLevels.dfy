/** The levels of the fixed rows of instructions that constructs compile to, and of constructs made of such rows
    and of parts. */
module RowLevels {
  import opened Common
  import opened Bytecode
  import opened Machine
  import opened Tokens
  import opened Ast
  import opened Source
  import opened Codegen
  import opened Calls
  import opened Levels

  // ----- the heights of the rows -----

  const MAPS: seq<nat> := [2, 2, 3, 4, 5, 5, 4, 5, 3, 3, 4, 4, 3, 2, 1]
  const KEEPS: seq<nat> := [2, 2, 3, 4, 4, 5, 6, 5, 4, 5, 3, 4, 3, 3, 3, 3, 2, 1]
  const FINDS: seq<nat> := [2, 2, 3, 3, 4, 5, 4, 3, 2, 2, 2, 3, 3, 2, 1]
  const FOLDS: seq<nat> := [2, 3, 3, 4, 5, 5, 5, 3, 3, 4, 3, 2, 3, 3, 2, 1]
  const PRELUDE: seq<nat> := [2, 3, 4, 3, 2, 3, 2, 3, 3, 3, 4, 3, 3]

  function ShortLevels(left: seq<Level>, right: seq<Level>, l: Level): seq<Level> {
    Then(left, Then(Rise(l, [1, 2, 1, 0]), Then(right, Rise(l, [1, 1]))))
  }

  function RepeatLevels(body: seq<Level>, l: Level): seq<Level> {
    Then(Rise(l, [1, 2, 3, 2, 1]), Then(body, Rise(l, [1, 2, 1, 1, 1, 0])))
  }

  function RangeLevels(start: seq<Level>, stop: seq<Level>, l: Level): seq<Level> {
    Then(Rise(l, [0, 0]), Then(start, Then(Rise(l, [1, 1]), Then(stop, Then(Rise(l, [2, 2]), Rise(l, PRELUDE))))))
  }

  function RoundsLevels(body: seq<Level>, l: Level): seq<Level> {
    Then(Rise(l, [3, 4, 5, 4, 3, 4, 3]), Then(body, Rise(l, [3, 4, 3, 4, 5, 4, 4, 3, 3, 3, 2, 1, 0])))
  }

  function ForeachLevels(body: seq<Level>, l: Level): seq<Level> {
    Then(Rise(l, [1, 2, 2, 1]), Then(body, Rise(l, [1, 1, 1, 0])))
  }

  function TryLevels(body: seq<Level>, handler: seq<Level>, l: Level): seq<Level> {
    Then([l, Marked(l)], Then(body, Then([Marked(l), l, Marked(l), l], handler)))
  }

  // ----- fixed rows -----

  /** What the instructions of the fixed rows take and leave. */
  lemma StackEffects()
    ensures forall n: Byte :: Effect(DupeValue(n)) == Some((n + 1, n + 2))
    ensures forall n: Byte, m: Byte :: Effect(SwapValues(n, m)) == Some((Higher(n, m) + 1, Higher(n, m) + 1))
    ensures Effect(PopValue) == Some((1, 0)) && Effect(Yield) == Some((0, 0))
  {
    hide Higher;
  }

  lemma PushEffects()
    ensures (forall n: I32 :: Effect(PushInt(n)) == Some((0, 1))) && Effect(PushString([])) == Some((0, 1))
    ensures forall name: Str :: Effect(Assign(name)) == Some((1, 0))
  {
  }

  lemma GatherEffect(vop: VariadicOp, n: nat)
    requires !vop.StrCat?
    ensures Effect(Variadic(vop, Fixed(n))) == Some((n, 1)) && Effect(Variadic(vop, Dynamic)) == Some((1, 1))
  {
  }

  lemma CallEffects()
    ensures Effect(ListInsertLast) == Some((2, 0))
    ensures forall n: nat :: Effect(CallClosure(false, n)) == Some((n + 1, 1))
  {
  }

  lemma ArithmeticEffects()
    ensures (forall r: Relation :: Effect(Cmp(r)) == Some((2, 1))) && forall op: BinaryOp ::
              Effect(Binary(op)) == Some((2, 1))
    ensures Effect(Unary(Abs)) == Some((1, 1))
  {
  }

  lemma Plain(ins: Instruction, q: nat, heights: seq<nat>, ends: map<nat, nat>, i: nat)
    requires i + 1 < |heights| && Effect(ins).Some? && Effect(ins).value.0 <= heights[i]
    requires heights[i + 1] == heights[i] - Effect(ins).value.0 + Effect(ins).value.1
    ensures Climbs(ins, q, heights, ends, i)
  {
    hide Effect;
    EffectOnly(ins);
  }

  lemma MapClimbs(q: nat)
    ensures forall i :: 0 <= i < 14 ==> Climbs(MapCode(q)[i], q, MAPS, map[], i)
  {
    hide Effect;
    StackEffects();
    GatherEffect(MakeList, 0);
    CallEffects();
    var row := MapCode(q);
    assert Climbs(row[4], q, MAPS, map[], 4);
    assert Climbs(row[9], q, MAPS, map[], 9);
    hide Climbs;
    forall i | 0 <= i < 14 && i != 4 && i != 9 ensures Climbs(row[i], q, MAPS, map[], i) {
      Plain(row[i], q, MAPS, map[], i);
    }
  }

  lemma KeepClimbs(q: nat)
    ensures forall i :: 0 <= i < 17 ==> Climbs(KeepCode(q)[i], q, KEEPS, map[], i)
  {
    hide Effect;
    StackEffects();
    GatherEffect(MakeList, 0);
    CallEffects();
    var row := KeepCode(q);
    assert Climbs(row[3], q, KEEPS, map[], 3);
    assert Climbs(row[7], q, KEEPS, map[], 7);
    assert Climbs(row[10], q, KEEPS, map[], 10);
    assert Climbs(row[13], q, KEEPS, map[], 13);
    hide Climbs;
    forall i | 0 <= i < 17 && i != 3 && i != 7 && i != 10 && i != 13 ensures Climbs(row[i], q, KEEPS, map[], i) {
      Plain(row[i], q, KEEPS, map[], i);
    }
  }

  lemma FindClimbs(q: nat)
    ensures forall i :: 0 <= i < 14 ==> Climbs(FindCode(q)[i], q, FINDS, map[], i)
  {
    hide Effect;
    StackEffects();
    GatherEffect(MakeList, 0);
    CallEffects();
    PushEffects();
    var row := FindCode(q);
    assert Climbs(row[2], q, FINDS, map[], 2);
    assert Climbs(row[6], q, FINDS, map[], 6);
    assert Climbs(row[9], q, FINDS, map[], 9);
    hide Climbs;
    forall i | 0 <= i < 14 && i != 2 && i != 6 && i != 9 ensures Climbs(row[i], q, FINDS, map[], i) {
      Plain(row[i], q, FINDS, map[], i);
    }
  }

  lemma FoldClimbs(q: nat)
    ensures forall i :: 0 <= i < 15 ==> Climbs(FoldCode(q)[i], q, FOLDS, map[], i)
  {
    hide Effect;
    StackEffects();
    GatherEffect(MakeList, 0);
    CallEffects();
    PushEffects();
    var row := FoldCode(q);
    assert Climbs(row[1], q, FOLDS, map[], 1);
    assert Climbs(row[4], q, FOLDS, map[], 4);
    assert Climbs(row[8], q, FOLDS, map[], 8);
    assert Climbs(row[10], q, FOLDS, map[], 10);
    hide Climbs;
    forall i | 0 <= i < 15 && i != 1 && i != 4 && i != 8 && i != 10 ensures Climbs(row[i], q, FOLDS, map[], i) {
      Plain(row[i], q, FOLDS, map[], i);
    }
  }

  lemma PreludeClimbs(q: nat)
    ensures forall i :: 0 <= i < 12 ==> Climbs(ForPrelude(q)[i], q, PRELUDE, map[], i)
  {
    hide Effect;
    StackEffects();
    PushEffects();
    ArithmeticEffects();
    var row := ForPrelude(q);
    assert Climbs(row[3], q, PRELUDE, map[], 3);
    assert Climbs(row[5], q, PRELUDE, map[], 5);
    hide Climbs;
    forall i | 0 <= i < 12 && i != 3 && i != 5 ensures Climbs(row[i], q, PRELUDE, map[], i) {
      Plain(row[i], q, PRELUDE, map[], i);
    }
  }

  // ----- rows that control also leaves elsewhere -----

  lemma ShortClimbs(q: nat, aft: nat, decides: bool)
    ensures forall i :: 0 <= i < 3 ==> Climbs(ShortCode(aft, decides)[i], q, [1, 2, 1, 0], map[aft := 1], i)
  {
    hide Effect;
    StackEffects();
    var row, heights, ends := ShortCode(aft, decides), [1, 2, 1, 0], map[aft := 1];
    assert Climbs(row[1], q, heights, ends, 1);
    hide Climbs;
    forall i | 0 <= i < 3 && i != 1 ensures Climbs(row[i], q, heights, ends, i) {
      Plain(row[i], q, heights, ends, i);
    }
  }

  lemma RepeatHeadClimbs(q: nat, tail: nat)
    ensures forall i :: 0 <= i < 4 ==> Climbs(RepeatHead(tail)[i], q, [1, 2, 3, 2, 1], map[tail + 4 := 1], i)
  {
    hide Effect;
    StackEffects();
    PushEffects();
    ArithmeticEffects();
    var row, heights, ends := RepeatHead(tail), [1, 2, 3, 2, 1], map[tail + 4 := 1];
    assert Climbs(row[3], q, heights, ends, 3);
    hide Climbs;
    forall i | 0 <= i < 4 && i != 3 ensures Climbs(row[i], q, heights, ends, i) {
      Plain(row[i], q, heights, ends, i);
    }
  }

  lemma RepeatTailClimbs(q: nat, top: nat)
    ensures forall i :: 0 <= i < 5 ==> Climbs(RepeatTail(top)[i], q, [1, 2, 1, 1, 1, 0], map[top := 1], i)
  {
    hide Effect;
    StackEffects();
    PushEffects();
    ArithmeticEffects();
    var row, heights, ends := RepeatTail(top), [1, 2, 1, 1, 1, 0], map[top := 1];
    assert Climbs(row[3], q, heights, ends, 3);
    hide Climbs;
    forall i | 0 <= i < 5 && i != 3 ensures Climbs(row[i], q, heights, ends, i) {
      Plain(row[i], q, heights, ends, i);
    }
  }

  lemma ForHeadClimbs(q: nat, tail: nat, trans: Str)
    ensures forall i :: 0 <= i < 6 ==> Climbs(ForHead(tail, trans)[i], q, [3, 4, 5, 4, 3, 4, 3], map[tail + 9 := 3], i)
  {
    hide Effect;
    StackEffects();
    PushEffects();
    ArithmeticEffects();
    var row, heights, ends := ForHead(tail, trans), [3, 4, 5, 4, 3, 4, 3], map[tail + 9 := 3];
    assert Climbs(row[3], q, heights, ends, 3);
    hide Climbs;
    forall i | 0 <= i < 6 && i != 3 ensures Climbs(row[i], q, heights, ends, i) {
      Plain(row[i], q, heights, ends, i);
    }
  }

  lemma ForTailClimbs(q: nat, top: nat)
    ensures forall i :: 0 <= i < 12 ==>
              Climbs(ForTail(top)[i], q, [3, 4, 3, 4, 5, 4, 4, 3, 3, 3, 2, 1, 0], map[top := 3], i)
  {
    hide Effect;
    StackEffects();
    PushEffects();
    ArithmeticEffects();
    var row, heights, ends := ForTail(top), [3, 4, 3, 4, 5, 4, 4, 3, 3, 3, 2, 1, 0], map[top := 3];
    assert Climbs(row[8], q, heights, ends, 8);
    hide Climbs;
    forall i | 0 <= i < 12 && i != 8 ensures Climbs(row[i], q, heights, ends, i) {
      Plain(row[i], q, heights, ends, i);
    }
  }

  lemma ForeachHeadClimbs(q: nat, tail: nat, trans: Str)
    ensures forall i :: 0 <= i < 3 ==> Climbs(ForeachHead(tail, trans)[i], q, [1, 2, 2, 1], map[tail + 2 := 1], i)
  {
    hide Effect;
    StackEffects();
    PushEffects();
    var row, heights, ends := ForeachHead(tail, trans), [1, 2, 2, 1], map[tail + 2 := 1];
    assert Climbs(row[1], q, heights, ends, 1);
    hide Climbs;
    forall i | 0 <= i < 3 && i != 1 ensures Climbs(row[i], q, heights, ends, i) {
      Plain(row[i], q, heights, ends, i);
    }
  }

  lemma ForeachTailClimbs(q: nat, top: nat)
    ensures forall i :: 0 <= i < 3 ==> Climbs(ForeachTail(top)[i], q, [1, 1, 1, 0], map[top := 1], i)
  {
    hide Effect;
    StackEffects();
    var row, heights, ends := ForeachTail(top), [1, 1, 1, 0], map[top := 1];
    assert Climbs(row[1], q, heights, ends, 1);
    hide Climbs;
    forall i | 0 <= i < 3 && i != 1 ensures Climbs(row[i], q, heights, ends, i) {
      Plain(row[i], q, heights, ends, i);
    }
  }

  lemma AgainClimbs(q: nat, top: nat)
    ensures forall i :: 0 <= i < 2 ==> Climbs([Yield, Jump(top)][i], q, [0, 0, 0], map[top := 0], i)
  {
    hide Effect;
    StackEffects();
  }

  lemma BranchClimbs(q: nat, to: nat, when_: bool, h: nat)
    ensures Climbs(ConditionalJump(to, when_), q, [h + 1, h], map[to := h], 0)
  {
    hide Effect;
  }

  lemma JumpClimbs(q: nat, to: nat, h: nat, k: nat)
    ensures Climbs(Jump(to), q, [h, k], map[to := h], 0)
  {
    hide Effect;
  }

  /** A row on its own, with one place outside it that control may leave for. */
  lemma Leaves(fns: FnTable, code: seq<Slot>, q: nat, row: seq<Instruction>, heights: seq<nat>, to: nat, h: nat,
               l: Level, all: iset<(nat, Level)>)
    requires Are(code, q, row) && |heights| == |row| + 1 && Proper(l)
    requires forall i :: 0 <= i < |row| ==> Climbs(row[i], q, heights, map[to := h], i)
    requires Cells(Rise(l, heights), q) <= all && (to, Up(l, h)) in all
    ensures Leads(fns, code, Rise(l, heights), q, |row|, Up(l, heights[0]), Up(l, heights[|row|]), all)
  {
    hide Climbs, Cells, Proper, Leads, Are, Rise;
    Row(fns, code, q, row, heights, map[to := h], l, all);
  }

  lemma Branches(fns: FnTable, code: seq<Slot>, q: nat, to: nat, when_: bool, h: nat, l: Level, all: iset<(nat, Level)>)
    requires Is(code, q, ConditionalJump(to, when_)) && Proper(l)
    requires Cells(Rise(l, [h + 1, h]), q) <= all && (to, Up(l, h)) in all
    ensures Leads(fns, code, Rise(l, [h + 1, h]), q, 1, Up(l, h + 1), Up(l, h), all)
  {
    hide Climbs, Cells, Proper, Leads, Rise;
    BranchClimbs(q, to, when_, h);
    Leaves(fns, code, q, [ConditionalJump(to, when_)], [h + 1, h], to, h, l, all);
  }

  lemma Jumps(fns: FnTable, code: seq<Slot>, q: nat, to: nat, h: nat, k: nat, l: Level, all: iset<(nat, Level)>)
    requires Is(code, q, Jump(to)) && Proper(l)
    requires Cells(Rise(l, [h, k]), q) <= all && (to, Up(l, h)) in all
    ensures Leads(fns, code, Rise(l, [h, k]), q, 1, Up(l, h), Up(l, k), all)
  {
    hide Climbs, Cells, Proper, Leads, Rise;
    JumpClimbs(q, to, h, k);
    Leaves(fns, code, q, [Jump(to)], [h, k], to, h, l, all);
  }

  lemma RiseRuns(l: Level, heights: seq<nat>)
    requires heights != []
    ensures Runs(Rise(l, heights), |heights| - 1, Up(l, heights[0]), Up(l, heights[|heights| - 1])) && Up(l, 0) == l
  {
  }

  lemma SettlesRuns(fns: FnTable, code: seq<Slot>, ls: seq<Level>, pc: nat, n: nat, from: Level, to: Level)
    requires Settles(fns, code, ls, pc, n, from, to)
    ensures Runs(ls, n, from, to) && (pc, from) in Cells(ls, pc) && (pc + n, to) in Cells(ls, pc)
  {
    hide Steady, Cells;
    InCells(ls, pc, 0);
    InCells(ls, pc, n);
  }

  lemma RunsCells(ls: seq<Level>, pc: nat, n: nat, from: Level, to: Level)
    requires Runs(ls, n, from, to)
    ensures (pc, from) in Cells(ls, pc) && (pc + n, to) in Cells(ls, pc)
  {
    hide Cells;
    InCells(ls, pc, 0);
    InCells(ls, pc, n);
  }

  // ----- constructs, from the levels of their parts -----

  lemma ShortSettles(fns: FnTable, code: seq<Slot>, a: seq<Level>, b: seq<Level>, n: nat, k: nat, decides: bool,
                     pc: nat, l: Level)
    requires Settles(fns, code, a, pc, n, l, Up(l, 1)) && Settles(fns, code, b, pc + n + 3, k, l, Up(l, 1)) && Proper(l)
    requires Are(code, pc + n, ShortCode(pc + n + 3 + k, decides)) && Is(code, pc + n + 3 + k, ToBool)
    ensures Settles(fns, code, ShortLevels(a, b, l), pc, n + k + 4, l, Up(l, 1))
  {
    hide Leads, Settles, Cells, Then, Runs, Rise, Proper, Climbs, Effect;
    var aft := pc + n + 3 + k;
    var h, t := Rise(l, [1, 2, 1, 0]), Rise(l, [1, 1]);
    var x := Then(b, t);
    var all := Cells(Then(a, Then(h, x)), pc);
    SettlesRuns(fns, code, a, pc, n, l, Up(l, 1));
    SettlesRuns(fns, code, b, pc + n + 3, k, l, Up(l, 1));
    RiseRuns(l, [1, 2, 1, 0]);
    RiseRuns(l, [1, 1]);
    RunsCells(t, aft, 1, Up(l, 1), Up(l, 1));
    Link(b, t, pc + n + 3, k, 1, l, Up(l, 1), Up(l, 1));
    LinkThree(a, h, x, pc, n, 3, k + 1, l, Up(l, 1), l, Up(l, 1));
    ToBoolEffect();
    Takes(fns, code, aft, ToBool, l, 1, 1);
    ShortClimbs(pc + n, aft, decides);
    Leaves(fns, code, pc + n, ShortCode(aft, decides), [1, 2, 1, 0], aft, 1, l, all);
    Within(fns, code, a, pc, n, l, Up(l, 1), all);
    Within(fns, code, b, pc + n + 3, k, l, Up(l, 1), all);
    Within(fns, code, t, aft, 1, Up(l, 1), Up(l, 1), all);
    LeadsThen(fns, code, b, t, pc + n + 3, k, 1, l, Up(l, 1), Up(l, 1), all);
    LeadsThree(fns, code, a, h, x, pc, n, 3, k + 1, l, Up(l, 1), l, Up(l, 1), all);
    Settled(fns, code, ShortLevels(a, b, l), pc, n + k + 4, l, Up(l, 1));
  }

  lemma Settled(fns: FnTable, code: seq<Slot>, ls: seq<Level>, pc: nat, n: nat, from: Level, to: Level)
    requires Leads(fns, code, ls, pc, n, from, to, Cells(ls, pc))
    ensures Settles(fns, code, ls, pc, n, from, to)
  {
    hide Leads, Cells;
  }

  lemma ToBoolEffect()
    ensures Effect(ToBool) == Some((1, 1)) && Effect(ToNum) == Some((1, 1))
  {
  }

  lemma ConditionalSettles(fns: FnTable, code: seq<Slot>, a: seq<Level>, b: seq<Level>, c: seq<Level>, n: nat, k: nat,
                           m: nat, pc: nat, l: Level)
    requires Settles(fns, code, a, pc, n, l, Up(l, 1)) && Settles(fns, code, b, pc + n + 1, k, l, Up(l, 1)) && Proper(l)
    requires Settles(fns, code, c, pc + n + k + 2, m, l, Up(l, 1))
    requires Is(code, pc + n, ConditionalJump(pc + n + k + 2, false))
             && Is(code, pc + n + 1 + k, Jump(pc + n + k + 2 + m))
    ensures Settles(fns, code, Then(a, Then(Rise(l, [1, 0]), Then(b, Then(Rise(l, [1, 0]), c)))), pc, n + k + m + 2, l,
                    Up(l, 1))
  {
    hide *;
    var else_ := pc + n + k + 2;
    var j := Rise(l, [1, 0]);
    var x := Then(b, Then(j, c));
    var all := Cells(Then(a, Then(j, x)), pc);
    SettlesRuns(fns, code, a, pc, n, l, Up(l, 1));
    SettlesRuns(fns, code, b, pc + n + 1, k, l, Up(l, 1));
    SettlesRuns(fns, code, c, else_, m, l, Up(l, 1));
    RiseRuns(l, [1, 0]);
    LinkThree(b, j, c, pc + n + 1, k, 1, m, l, Up(l, 1), l, Up(l, 1));
    LinkThree(a, j, x, pc, n, 1, k + m + 1, l, Up(l, 1), l, Up(l, 1));
    Branches(fns, code, pc + n, else_, false, 0, l, all);
    Jumps(fns, code, pc + n + 1 + k, else_ + m, 1, 0, l, all);
    Within(fns, code, a, pc, n, l, Up(l, 1), all);
    Within(fns, code, b, pc + n + 1, k, l, Up(l, 1), all);
    Within(fns, code, c, else_, m, l, Up(l, 1), all);
    LeadsThree(fns, code, b, j, c, pc + n + 1, k, 1, m, l, Up(l, 1), l, Up(l, 1), all);
    LeadsThree(fns, code, a, j, x, pc, n, 1, k + m + 1, l, Up(l, 1), l, Up(l, 1), all);
    Settled(fns, code, Then(a, Then(j, x)), pc, n + k + m + 2, l, Up(l, 1));
  }

  lemma IfSettles(fns: FnTable, code: seq<Slot>, a: seq<Level>, b: seq<Level>, n: nat, k: nat, pc: nat, l: Level)
    requires Settles(fns, code, a, pc, n, l, Up(l, 1)) && Settles(fns, code, b, pc + n + 1, k, l, l) && Proper(l)
    requires Is(code, pc + n, ConditionalJump(pc + n + 1 + k, false))
    ensures Settles(fns, code, Then(a, Then(Rise(l, [1, 0]), b)), pc, n + k + 1, l, l)
  {
    hide *;
    var j := Rise(l, [1, 0]);
    var all := Cells(Then(a, Then(j, b)), pc);
    SettlesRuns(fns, code, a, pc, n, l, Up(l, 1));
    SettlesRuns(fns, code, b, pc + n + 1, k, l, l);
    RiseRuns(l, [1, 0]);
    LinkThree(a, j, b, pc, n, 1, k, l, Up(l, 1), l, l);
    Branches(fns, code, pc + n, pc + n + 1 + k, false, 0, l, all);
    Within(fns, code, a, pc, n, l, Up(l, 1), all);
    Within(fns, code, b, pc + n + 1, k, l, l, all);
    LeadsThree(fns, code, a, j, b, pc, n, 1, k, l, Up(l, 1), l, l, all);
    Settled(fns, code, Then(a, Then(j, b)), pc, n + k + 1, l, l);
  }

  lemma IfElseSettles(fns: FnTable, code: seq<Slot>, a: seq<Level>, b: seq<Level>, c: seq<Level>, n: nat, k: nat,
                      m: nat, pc: nat, l: Level)
    requires Settles(fns, code, a, pc, n, l, Up(l, 1)) && Settles(fns, code, b, pc + n + 1, k, l, l) && Proper(l)
    requires Settles(fns, code, c, pc + n + k + 2, m, l, l)
    requires Is(code, pc + n, ConditionalJump(pc + n + k + 2, false))
             && Is(code, pc + n + 1 + k, Jump(pc + n + k + 2 + m))
    ensures Settles(fns, code, Then(a, Then(Rise(l, [1, 0]), Then(b, Then(Rise(l, [0, 0]), c)))), pc, n + k + m + 2, l,
                    l)
  {
    hide *;
    var else_ := pc + n + k + 2;
    var j, i := Rise(l, [1, 0]), Rise(l, [0, 0]);
    var x := Then(b, Then(i, c));
    var all := Cells(Then(a, Then(j, x)), pc);
    SettlesRuns(fns, code, a, pc, n, l, Up(l, 1));
    SettlesRuns(fns, code, b, pc + n + 1, k, l, l);
    SettlesRuns(fns, code, c, else_, m, l, l);
    RiseRuns(l, [1, 0]);
    RiseRuns(l, [0, 0]);
    LinkThree(b, i, c, pc + n + 1, k, 1, m, l, l, l, l);
    LinkThree(a, j, x, pc, n, 1, k + m + 1, l, Up(l, 1), l, l);
    Branches(fns, code, pc + n, else_, false, 0, l, all);
    Jumps(fns, code, pc + n + 1 + k, else_ + m, 0, 0, l, all);
    Within(fns, code, a, pc, n, l, Up(l, 1), all);
    Within(fns, code, b, pc + n + 1, k, l, l, all);
    Within(fns, code, c, else_, m, l, l, all);
    LeadsThree(fns, code, b, i, c, pc + n + 1, k, 1, m, l, l, l, l, all);
    LeadsThree(fns, code, a, j, x, pc, n, 1, k + m + 1, l, Up(l, 1), l, l, all);
    Settled(fns, code, Then(a, Then(j, x)), pc, n + k + m + 2, l, l);
  }

  lemma InfLoopSettles(fns: FnTable, code: seq<Slot>, a: seq<Level>, n: nat, pc: nat, l: Level)
    requires Settles(fns, code, a, pc, n, l, l) && Proper(l) && Are(code, pc + n, [Yield, Jump(pc)])
    ensures Settles(fns, code, Then(a, Rise(l, [0, 0, 0])), pc, n + 2, l, l)
  {
    hide *;
    var j := Rise(l, [0, 0, 0]);
    var all := Cells(Then(a, j), pc);
    SettlesRuns(fns, code, a, pc, n, l, l);
    RiseRuns(l, [0, 0, 0]);
    Link(a, j, pc, n, 2, l, l, l);
    AgainClimbs(pc + n, pc);
    Leaves(fns, code, pc + n, [Yield, Jump(pc)], [0, 0, 0], pc, 0, l, all);
    Within(fns, code, a, pc, n, l, l, all);
    LeadsThen(fns, code, a, j, pc, n, 2, l, l, l, all);
    Settled(fns, code, Then(a, j), pc, n + 2, l, l);
  }

  lemma UntilSettles(fns: FnTable, code: seq<Slot>, a: seq<Level>, b: seq<Level>, n: nat, k: nat, pc: nat, l: Level)
    requires Settles(fns, code, a, pc, n, l, Up(l, 1)) && Settles(fns, code, b, pc + n + 1, k, l, l) && Proper(l)
    requires Is(code, pc + n, ConditionalJump(pc + n + k + 3, true)) && Are(code, pc + n + 1 + k, [Yield, Jump(pc)])
    ensures Settles(fns, code, Then(a, Then(Rise(l, [1, 0]), Then(b, Rise(l, [0, 0, 0])))), pc, n + k + 3, l, l)
  {
    hide *;
    var j, t := Rise(l, [1, 0]), Rise(l, [0, 0, 0]);
    var x := Then(b, t);
    var all := Cells(Then(a, Then(j, x)), pc);
    SettlesRuns(fns, code, a, pc, n, l, Up(l, 1));
    SettlesRuns(fns, code, b, pc + n + 1, k, l, l);
    RiseRuns(l, [1, 0]);
    RiseRuns(l, [0, 0, 0]);
    RunsCells(t, pc + n + 1 + k, 2, l, l);
    Link(b, t, pc + n + 1, k, 2, l, l, l);
    LinkThree(a, j, x, pc, n, 1, k + 2, l, Up(l, 1), l, l);
    Branches(fns, code, pc + n, pc + n + k + 3, true, 0, l, all);
    AgainClimbs(pc + n + 1 + k, pc);
    Leaves(fns, code, pc + n + 1 + k, [Yield, Jump(pc)], [0, 0, 0], pc, 0, l, all);
    Within(fns, code, a, pc, n, l, Up(l, 1), all);
    Within(fns, code, b, pc + n + 1, k, l, l, all);
    LeadsThen(fns, code, b, t, pc + n + 1, k, 2, l, l, l, all);
    LeadsThree(fns, code, a, j, x, pc, n, 1, k + 2, l, Up(l, 1), l, l, all);
    Settled(fns, code, Then(a, Then(j, x)), pc, n + k + 3, l, l);
  }

  /** A loop: a head that may leave for a place in the tail, the body, and a tail that goes back to the head. */
  lemma LoopSettles(fns: FnTable, code: seq<Slot>, head: seq<Instruction>, b: seq<Level>, tail: seq<Instruction>,
                    k: nat, q: nat, up: seq<nat>, down: seq<nat>, h: nat, out: nat, l: Level)
    requires Proper(l) && |up| == |head| + 1 && |down| == |tail| + 1 && up[0] == h && up[|head|] == h && down[0] == h
             && down[|tail|] == 0
    requires Are(code, q, head) && Settles(fns, code, b, q + |head|, k, Up(l, h), Up(l, h))
             && Are(code, q + |head| + k, tail)
    requires out <= |tail| && forall i :: 0 <= i < |head| ==>
               Climbs(head[i], q, up, map[q + |head| + k + out := down[out]], i)
    requires forall i :: 0 <= i < |tail| ==> Climbs(tail[i], q + |head| + k, down, map[q := h], i)
    ensures Settles(fns, code, Then(Rise(l, up), Then(b, Rise(l, down))), q, |head| + k + |tail|, Up(l, h), l)
  {
    hide *;
    var p := q + |head| + k;
    var top, end := Rise(l, up), Rise(l, down);
    var all := Cells(Then(top, Then(b, end)), q);
    SettlesRuns(fns, code, b, q + |head|, k, Up(l, h), Up(l, h));
    RiseRuns(l, up);
    RiseRuns(l, down);
    RunsCells(top, q, |head|, Up(l, h), Up(l, h));
    RiseCell(l, down, p, out);
    LinkThree(top, b, end, q, |head|, k, |tail|, Up(l, h), Up(l, h), Up(l, h), l);
    Leaves(fns, code, q, head, up, p + out, down[out], l, all);
    Leaves(fns, code, p, tail, down, q, h, l, all);
    Within(fns, code, b, q + |head|, k, Up(l, h), Up(l, h), all);
    LeadsThree(fns, code, top, b, end, q, |head|, k, |tail|, Up(l, h), Up(l, h), Up(l, h), l, all);
    Settled(fns, code, Then(top, Then(b, end)), q, |head| + k + |tail|, Up(l, h), l);
  }

  lemma RiseCell(l: Level, heights: seq<nat>, q: nat, i: nat)
    requires i < |heights|
    ensures (q + i, Up(l, heights[i])) in Cells(Rise(l, heights), q)
  {
    hide Cells;
    InCells(Rise(l, heights), q, i);
  }

  lemma RepeatSettles(fns: FnTable, code: seq<Slot>, b: seq<Level>, k: nat, q: nat, l: Level)
    requires Proper(l) && Are(code, q, RepeatHead(q + 4 + k)) && Are(code, q + 4 + k, RepeatTail(q))
    requires Settles(fns, code, b, q + 4, k, Up(l, 1), Up(l, 1))
    ensures Settles(fns, code, RepeatLevels(b, l), q, k + 9, Up(l, 1), l)
  {
    hide Leads, Settles, Cells, Then, Runs, Rise, Proper, Climbs, Effect;
    RepeatHeadClimbs(q, q + 4 + k);
    RepeatTailClimbs(q + 4 + k, q);
    LoopSettles(fns, code, RepeatHead(q + 4 + k), b, RepeatTail(q), k, q, [1, 2, 3, 2, 1], [1, 2, 1, 1, 1, 0], 1, 4, l);
  }

  lemma RoundsSettle(fns: FnTable, code: seq<Slot>, b: seq<Level>, k: nat, q: nat, trans: Str, l: Level)
    requires Proper(l) && Are(code, q, ForHead(q + 6 + k, trans)) && Are(code, q + 6 + k, ForTail(q))
    requires Settles(fns, code, b, q + 6, k, Up(l, 3), Up(l, 3))
    ensures Settles(fns, code, RoundsLevels(b, l), q, k + 18, Up(l, 3), l)
  {
    hide Leads, Settles, Cells, Then, Runs, Rise, Proper, Climbs, Effect;
    ForHeadClimbs(q, q + 6 + k, trans);
    ForTailClimbs(q + 6 + k, q);
    LoopSettles(fns, code, ForHead(q + 6 + k, trans), b, ForTail(q), k, q, [3, 4, 5, 4, 3, 4, 3],
                [3, 4, 3, 4, 5, 4, 4, 3, 3, 3, 2, 1, 0], 3, 9, l);
  }

  lemma ForeachSettles(fns: FnTable, code: seq<Slot>, b: seq<Level>, k: nat, q: nat, trans: Str, l: Level)
    requires Proper(l) && Are(code, q, ForeachHead(q + 3 + k, trans)) && Are(code, q + 3 + k, ForeachTail(q))
    requires Settles(fns, code, b, q + 3, k, Up(l, 1), Up(l, 1))
    ensures Settles(fns, code, ForeachLevels(b, l), q, k + 6, Up(l, 1), l)
  {
    hide Leads, Settles, Cells, Then, Runs, Rise, Proper, Climbs, Effect;
    ForeachHeadClimbs(q, q + 3 + k, trans);
    ForeachTailClimbs(q + 3 + k, q);
    LoopSettles(fns, code, ForeachHead(q + 3 + k, trans), b, ForeachTail(q), k, q, [1, 2, 2, 1], [1, 1, 1, 0], 1, 2, l);
  }

  /** The handler is open in the body, and closed on either way out of it. */
  lemma TrySettles(fns: FnTable, code: seq<Slot>, a: seq<Level>, b: seq<Level>, name: Str, n: nat, k: nat, pc: nat,
                   l: Level)
    requires Proper(l) && Is(code, pc, PushHandler(pc + n + 3, name))
    requires Settles(fns, code, a, pc + 1, n, Marked(l), Marked(l)) && Settles(fns, code, b, pc + n + 4, k, l, l)
    requires Is(code, pc + n + 1, PopHandler) && Is(code, pc + n + 2, Jump(pc + n + 4 + k))
             && Is(code, pc + n + 3, PopHandler)
    ensures Settles(fns, code, TryLevels(a, b, l), pc, n + k + 4, l, l)
  {
    hide Leads, Settles, Cells, Then, Runs, Proper, Effect;
    var g := Marked(l);
    var open, mid := [l, g], [g, l, g, l];
    var x := Then(mid, b);
    var all := Cells(Then(open, Then(a, x)), pc);
    SettlesRuns(fns, code, a, pc + 1, n, g, g);
    SettlesRuns(fns, code, b, pc + n + 4, k, l, l);
    MarkRuns(l);
    Link(mid, b, pc + n + 1, 3, k, g, l, l);
    LinkThree(open, a, x, pc, 1, n, k + 3, l, g, g, l);
    InCells(mid, pc + n + 1, 1);
    InCells(mid, pc + n + 1, 2);
    InCells(mid, pc + n + 1, 3);
    InCells(open, pc, 1);
    MarkedProper(l);
    One(fns, code, pc, PushHandler(pc + n + 3, name), l, g, all);
    TryMiddle(fns, code, pc + n + 1, pc + n + 4 + k, l, all);
    Within(fns, code, a, pc + 1, n, g, g, all);
    Within(fns, code, b, pc + n + 4, k, l, l, all);
    LeadsThen(fns, code, mid, b, pc + n + 1, 3, k, g, l, l, all);
    LeadsThree(fns, code, open, a, x, pc, 1, n, k + 3, l, g, g, l, all);
    Settled(fns, code, TryLevels(a, b, l), pc, n + k + 4, l, l);
  }

  lemma MarkRuns(l: Level)
    ensures Runs([l, Marked(l)], 1, l, Marked(l)) && Runs([Marked(l), l, Marked(l), l], 3, Marked(l), l)
  {
  }

  lemma TryMiddle(fns: FnTable, code: seq<Slot>, q: nat, end: nat, l: Level, all: iset<(nat, Level)>)
    requires Proper(l) && Is(code, q, PopHandler) && Is(code, q + 1, Jump(end)) && Is(code, q + 2, PopHandler)
    requires (q + 1, l) in all && (q + 3, l) in all && (end, l) in all
    ensures Leads(fns, code, [Marked(l), l, Marked(l), l], q, 3, Marked(l), l, all)
  {
    hide Proper, Effect, Spare;
    MarkedProper(l);
    var ls := [Marked(l), l, Marked(l), l];
    assert Stays(fns, code, ls, q, q, all);
    assert Stays(fns, code, ls, q, q + 1, all);
    assert Stays(fns, code, ls, q, q + 2, all);
  }
}
