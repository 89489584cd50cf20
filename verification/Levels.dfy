/** The height of the value stack at every instruction of compiled code, above the floor of its activation, and
    the heights at which handlers were pushed. The code alone fixes both. */
module Levels {
  import opened Common
  import opened Bytecode
  import opened Machine
  import opened Tokens
  import opened Ast
  import opened Source
  import opened Codegen
  import opened Calls

  /** `height` values belong to the activation; its open handlers were pushed at the heights in `marks`. */
  datatype Level = Level(height: nat, marks: seq<nat>)

  const GROUND := Level(0, [])

  function Up(l: Level, n: int): Level {
    if l.height + n < 0 then l else l.(height := l.height + n)
  }

  /** The values that were pushed since the innermost open handler. Only those may be touched. */
  function Spare(l: Level): int {
    if l.marks == [] then l.height else l.height - l.marks[|l.marks| - 1]
  }

  ghost predicate Proper(l: Level) {
    Spare(l) >= 0 && forall i, j :: 0 <= i < j < |l.marks| ==> l.marks[i] <= l.marks[j]
  }

  function Marked(l: Level): Level {
    l.(marks := l.marks + [l.height])
  }

  function Unmarked(l: Level): Level {
    if l.marks == [] then l else l.(marks := l.marks[..|l.marks| - 1])
  }

  /** Takes `n` values and leaves `k`. */
  function Shifted(l: Level, n: int, k: int): Level {
    Up(l, k - n)
  }

  // ----- where control may go -----

  function Higher(i: nat, j: nat): nat {
    if i < j then j else i
  }

  /** What an instruction that simply goes on takes and leaves. */
  function Effect(ins: Instruction): Option<(nat, nat)> {
    if ins.DupeValue? then Some((ins.topIndex + 1, ins.topIndex + 2))
    else if ins.SwapValues? then
      var n := Higher(ins.topIndex1, ins.topIndex2) + 1;
      Some((n, n))
    else if Arity(ins).Some? then Some((Arity(ins).value, if Silent(ins) || ins.Throw? then 0 else 1))
    else if ins.PushVariable? then Some((0, 1))
    else if ins.Assign? || ins.BinaryOpAssign? then Some((1, 0))
    else if ins.CallClosure? then Some((ins.args + 1, 1))
    else if ins.DeclareLocal? || ins.InitUpvar? || ins.Yield? || ins.WarpStart? || ins.WarpStop? then Some((0, 0))
    else None
  }

  function Next(pos: int): nat {
    if pos < 0 then 0 else pos + 1
  }

  /** What stands at `pos` takes no more than it may, and control goes on at places and levels of `all` only. */
  ghost predicate Flows(fns: FnTable, slot: Slot, pos: int, l: Level, all: iset<(nat, Level)>) {
    match slot
    case Pending => false
    case ClosureHole(_, _, _, _) => (Next(pos), Up(l, 1)) in all
    case CallHole(name, ent) =>
      var fn := Resolve(fns, ent, name);
      fn.Some? && NulFree(fn.value.params) && |fn.value.params| <= Spare(l)
        && (Next(pos), Shifted(l, |fn.value.params|, 1)) in all
    case Ins(ins) => GoesOn(ins, pos, l, all)
  }

  ghost predicate GoesOn(ins: Instruction, pos: int, l: Level, all: iset<(nat, Level)>) {
    if ins.Jump? then (ins.to, l) in all
    else if ins.ConditionalJump? then
      1 <= Spare(l) && (ins.to, Shifted(l, 1, 0)) in all && (Next(pos), Shifted(l, 1, 0)) in all
    else if ins.ListPopFirstOrElse? then
      1 <= Spare(l) && (ins.goto, Shifted(l, 1, 0)) in all && (Next(pos), l) in all
    else if ins.PushHandler? then (ins.pos, Marked(l)) in all && (Next(pos), Marked(l)) in all
    else if ins.PopHandler? then l.marks != [] && (Next(pos), Unmarked(l)) in all
    else if ins.Return? then 1 <= l.height
    else
      var e := Effect(ins);
      e.Some? && e.value.0 <= Spare(l) && (Next(pos), Shifted(l, e.value.0, e.value.1)) in all
  }

  // ----- stretches of code -----

  /** The places of a stretch from `pc` on. The last level is the one control leaves with. */
  ghost function Cells(ls: seq<Level>, pc: int): iset<(nat, Level)> {
    iset q: nat, l: Level | pc <= q < pc + |ls| && ls[q - pc] == l :: (q, l)
  }

  ghost predicate Stays(fns: FnTable, code: seq<Slot>, ls: seq<Level>, pc: int, q: int, all: iset<(nat, Level)>) {
    0 <= q < |code| && pc <= q < pc + |ls| && Flows(fns, code[q], q, ls[q - pc], all)
  }

  ghost predicate Steady(fns: FnTable, code: seq<Slot>, ls: seq<Level>, pc: int, all: iset<(nat, Level)>) {
    && ls != [] && (forall i :: 0 <= i < |ls| ==> Proper(ls[i]))
    && forall q :: pc <= q < pc + |ls| - 1 ==> Stays(fns, code, ls, pc, q, all)
  }

  /** `n` instructions that go from one level to another, within `all`. */
  ghost predicate Leads(fns: FnTable, code: seq<Slot>, ls: seq<Level>, pc: int, n: int, from: Level, to: Level,
                        all: iset<(nat, Level)>) {
    0 <= n && |ls| == n + 1 && ls[0] == from && ls[n] == to && Steady(fns, code, ls, pc, all)
  }

  /** Control stays inside the stretch until it leaves at its end. */
  ghost predicate Settles(fns: FnTable, code: seq<Slot>, ls: seq<Level>, pc: int, n: int, from: Level, to: Level) {
    Leads(fns, code, ls, pc, n, from, to, Cells(ls, pc))
  }

  /** One stretch and then another: the level the first leaves with is the one the second starts at. */
  function Then(a: seq<Level>, b: seq<Level>): seq<Level> {
    if a == [] then b else a[..|a| - 1] + b
  }

  function Rise(l: Level, heights: seq<int>): (r: seq<Level>)
    ensures |r| == |heights|
  {
    seq(|heights|, i requires 0 <= i < |heights| => Up(l, heights[i]))
  }

  /** `n` instructions that leave the level alone. */
  function Evenly(l: Level, n: int): seq<Level> {
    Rise(l, if n < 0 then [0] else seq(n + 1, i => 0))
  }

  lemma FlowsMore(fns: FnTable, slot: Slot, pos: nat, l: Level, some: iset<(nat, Level)>, all: iset<(nat, Level)>)
    requires Flows(fns, slot, pos, l, some) && some <= all
    ensures Flows(fns, slot, pos, l, all)
  {
    hide Effect, Resolve, Spare, NulFree;
  }

  lemma LeadsMore(fns: FnTable, code: seq<Slot>, ls: seq<Level>, pc: nat, n: nat, from: Level, to: Level,
                  some: iset<(nat, Level)>, all: iset<(nat, Level)>)
    requires Leads(fns, code, ls, pc, n, from, to, some) && some <= all
    ensures Leads(fns, code, ls, pc, n, from, to, all)
  {
    hide Flows, Proper;
    forall q | pc <= q < pc + |ls| - 1 ensures Stays(fns, code, ls, pc, q, all) {
      assert Stays(fns, code, ls, pc, q, some);
      FlowsMore(fns, code[q], q, ls[q - pc], some, all);
    }
  }

  lemma InCells(ls: seq<Level>, pc: nat, i: nat)
    requires i < |ls|
    ensures (pc + i, ls[i]) in Cells(ls, pc)
  {
    assert ls[pc + i - pc] == ls[i];
  }

  lemma ThenLeft(a: seq<Level>, b: seq<Level>, i: nat)
    requires b != [] && i < |a| - 1
    ensures |Then(a, b)| == |a| - 1 + |b| && Then(a, b)[i] == a[i]
  {
  }

  lemma ThenRight(a: seq<Level>, b: seq<Level>, i: nat)
    requires a != [] && i < |b|
    ensures |Then(a, b)| == |a| - 1 + |b| && Then(a, b)[|a| - 1 + i] == b[i]
  {
  }

  /** Levels of `n` instructions, from one level to another. */
  ghost predicate Runs(ls: seq<Level>, n: int, from: Level, to: Level) {
    0 <= n && |ls| == n + 1 && ls[0] == from && ls[n] == to
  }

  /** The places of two stretches in a row are among those of the whole. */
  lemma Link(a: seq<Level>, b: seq<Level>, pc: nat, n: nat, k: nat, from: Level, by_: Level, to: Level)
    requires Runs(a, n, from, by_) && Runs(b, k, by_, to)
    ensures Runs(Then(a, b), n + k, from, to)
    ensures Cells(a, pc) <= Cells(Then(a, b), pc) && Cells(b, pc + n) <= Cells(Then(a, b), pc)
  {
    hide Then;
    var r := Then(a, b);
    ThenRight(a, b, k);
    ThenRight(a, b, 0);
    if n > 0 {
      ThenLeft(a, b, 0);
    }
    forall q: nat, l: Level | (q, l) in Cells(a, pc) ensures (q, l) in Cells(r, pc) {
      if q < pc + n {
        ThenLeft(a, b, q - pc);
      }
    }
    forall q: nat, l: Level | (q, l) in Cells(b, pc + n) ensures (q, l) in Cells(r, pc) {
      ThenRight(a, b, q - (pc + n));
    }
  }

  lemma LinkThree(a: seq<Level>, b: seq<Level>, c: seq<Level>, pc: nat, n: nat, k: nat, m: nat, w: Level, x: Level,
                  y: Level, z: Level)
    requires Runs(a, n, w, x) && Runs(b, k, x, y) && Runs(c, m, y, z)
    ensures var r := Then(a, Then(b, c));
            && Runs(r, n + k + m, w, z)
            && Cells(a, pc) <= Cells(r, pc) && Cells(b, pc + n) <= Cells(r, pc) && Cells(c, pc + n + k) <= Cells(r, pc)
  {
    hide Then, Cells, Runs;
    Link(b, c, pc + n, k, m, x, y, z);
    Link(a, Then(b, c), pc, n, k + m, w, x, z);
  }

  lemma LeadsThen(fns: FnTable, code: seq<Slot>, a: seq<Level>, b: seq<Level>, pc: nat, n: nat, k: nat,
                  from: Level, by_: Level, to: Level, all: iset<(nat, Level)>)
    requires Leads(fns, code, a, pc, n, from, by_, all) && Leads(fns, code, b, pc + n, k, by_, to, all)
    ensures Leads(fns, code, Then(a, b), pc, n + k, from, to, all)
  {
    hide Flows, Proper, Then;
    var r := Then(a, b);
    ThenRight(a, b, k);
    if n == 0 {
      ThenRight(a, b, 0);
    } else {
      ThenLeft(a, b, 0);
    }
    forall q | pc <= q < pc + |r| - 1 ensures Stays(fns, code, r, pc, q, all) {
      if q < pc + n {
        ThenLeft(a, b, q - pc);
        assert Stays(fns, code, a, pc, q, all);
      } else {
        ThenRight(a, b, q - pc - n);
        assert Stays(fns, code, b, pc + n, q, all);
      }
    }
    forall i | 0 <= i < |r| ensures Proper(r[i]) {
      if i < n {
        ThenLeft(a, b, i);
      } else {
        ThenRight(a, b, i - n);
      }
    }
  }

  lemma LeadsThree(fns: FnTable, code: seq<Slot>, a: seq<Level>, b: seq<Level>, c: seq<Level>, pc: nat, n: nat, k: nat,
                   m: nat, w: Level, x: Level, y: Level, z: Level, all: iset<(nat, Level)>)
    requires Leads(fns, code, a, pc, n, w, x, all) && Leads(fns, code, b, pc + n, k, x, y, all)
    requires Leads(fns, code, c, pc + n + k, m, y, z, all)
    ensures Leads(fns, code, Then(a, Then(b, c)), pc, n + k + m, w, z, all)
  {
    hide Then, Leads;
    LeadsThen(fns, code, b, c, pc + n, k, m, x, y, z, all);
    LeadsThen(fns, code, a, Then(b, c), pc, n, k + m, w, x, z, all);
  }

  lemma LeadsRuns(fns: FnTable, code: seq<Slot>, ls: seq<Level>, pc: nat, n: nat, from: Level, to: Level,
                  all: iset<(nat, Level)>)
    requires Leads(fns, code, ls, pc, n, from, to, all)
    ensures Runs(ls, n, from, to)
  {
    hide Steady;
  }

  /** A stretch that control only leaves at its end, as part of a larger one. */
  lemma Within(fns: FnTable, code: seq<Slot>, ls: seq<Level>, pc: nat, n: nat, from: Level, to: Level,
               all: iset<(nat, Level)>)
    requires Settles(fns, code, ls, pc, n, from, to) && Cells(ls, pc) <= all
    ensures Leads(fns, code, ls, pc, n, from, to, all)
  {
    hide Leads, Cells;
    LeadsMore(fns, code, ls, pc, n, from, to, Cells(ls, pc), all);
  }

  lemma Joins(fns: FnTable, code: seq<Slot>, a: seq<Level>, b: seq<Level>, pc: nat, n: nat, k: nat,
              from: Level, by_: Level, to: Level)
    requires Settles(fns, code, a, pc, n, from, by_) && Settles(fns, code, b, pc + n, k, by_, to)
    ensures Settles(fns, code, Then(a, b), pc, n + k, from, to)
  {
    hide Leads, Cells, Then, Runs;
    var all := Cells(Then(a, b), pc);
    LeadsRuns(fns, code, a, pc, n, from, by_, Cells(a, pc));
    LeadsRuns(fns, code, b, pc + n, k, by_, to, Cells(b, pc + n));
    Link(a, b, pc, n, k, from, by_, to);
    Within(fns, code, a, pc, n, from, by_, all);
    Within(fns, code, b, pc + n, k, by_, to, all);
    LeadsThen(fns, code, a, b, pc, n, k, from, by_, to, all);
  }

  // ----- single instructions, and fixed rows of them -----

  lemma UpProper(l: Level, n: nat)
    requires Proper(l)
    ensures Proper(Up(l, n)) && Spare(Up(l, n)) == Spare(l) + n
  {
  }

  lemma MarkedProper(l: Level)
    requires Proper(l)
    ensures Proper(Marked(l)) && Unmarked(Marked(l)) == l
  {
  }

  /** One instruction, within `all`. */
  lemma One(fns: FnTable, code: seq<Slot>, pc: nat, ins: Instruction, from: Level, to: Level, all: iset<(nat, Level)>)
    requires Is(code, pc, ins) && Proper(from) && Proper(to) && GoesOn(ins, pc, from, all)
    ensures Leads(fns, code, [from, to], pc, 1, from, to, all)
  {
    hide GoesOn, Proper;
    var ls := [from, to];
    forall q | pc <= q < pc + |ls| - 1 ensures Stays(fns, code, ls, pc, q, all) {
      assert q == pc;
    }
  }

  /** Whether `to` is a place of a row at height `h`, or one of the given places outside it. */
  predicate Lands(q: nat, heights: seq<nat>, ends: map<nat, nat>, to: nat, h: nat) {
    if to in ends then ends[to] == h else q <= to < q + |heights| && heights[to - q] == h
  }

  /** Instruction `i` of a row at `q` finds the operands it needs, and goes on at the right heights. */
  predicate Climbs(ins: Instruction, q: nat, heights: seq<nat>, ends: map<nat, nat>, i: nat)
    requires i + 1 < |heights|
  {
    var h := heights[i];
    if ins.Jump? then Lands(q, heights, ends, ins.to, h)
    else if ins.ConditionalJump? then 1 <= h && Lands(q, heights, ends, ins.to, h - 1) && heights[i + 1] == h - 1
    else if ins.ListPopFirstOrElse? then 1 <= h && Lands(q, heights, ends, ins.goto, h - 1) && heights[i + 1] == h
    else
      var e := Effect(ins);
      e.Some? && e.value.0 <= h && heights[i + 1] == h - e.value.0 + e.value.1
  }

  /** `all` has the places of a row, and the ones outside it. */
  ghost predicate Spans(all: iset<(nat, Level)>, q: nat, heights: seq<nat>, ends: map<nat, nat>, l: Level) {
    && (forall i :: 0 <= i < |heights| ==> (q + i, Up(l, heights[i])) in all)
    && forall to :: to in ends ==> (to, Up(l, ends[to])) in all
  }

  lemma LandsIn(all: iset<(nat, Level)>, q: nat, heights: seq<nat>, ends: map<nat, nat>, l: Level, to: nat, h: nat)
    requires Spans(all, q, heights, ends, l) && Lands(q, heights, ends, to, h)
    ensures (to, Up(l, h)) in all
  {
    if to !in ends {
      assert (q + (to - q), Up(l, heights[to - q])) in all;
    }
  }

  lemma ClimbGoes(all: iset<(nat, Level)>, ins: Instruction, q: nat, heights: seq<nat>, ends: map<nat, nat>, l: Level,
                  i: nat)
    requires Spans(all, q, heights, ends, l) && Proper(l) && i + 1 < |heights| && Climbs(ins, q, heights, ends, i)
    ensures ins.Jump? || ins.ConditionalJump? || ins.ListPopFirstOrElse? || Effect(ins).Some?
    ensures GoesOn(ins, q + i, Up(l, heights[i]), all)
  {
    hide Lands, Effect, Proper, Spare;
    var h := heights[i];
    UpProper(l, h);
    assert Spare(l) >= 0 by {
      SpareOf(l);
    }
    assert (q + (i + 1), Up(l, heights[i + 1])) in all;
    if ins.Jump? {
      LandsIn(all, q, heights, ends, l, ins.to, h);
    } else if ins.ConditionalJump? {
      LandsIn(all, q, heights, ends, l, ins.to, h - 1);
      assert Shifted(Up(l, h), 1, 0) == Up(l, h - 1);
    } else if ins.ListPopFirstOrElse? {
      LandsIn(all, q, heights, ends, l, ins.goto, h - 1);
      assert Shifted(Up(l, h), 1, 0) == Up(l, h - 1);
    } else {
      EffectOnly(ins);
      var e := Effect(ins).value;
      assert Shifted(Up(l, h), e.0, e.1) == Up(l, heights[i + 1]);
    }
  }

  lemma SpareOf(l: Level)
    requires Proper(l)
    ensures Spare(l) >= 0
  {
  }

  lemma EffectOnly(ins: Instruction)
    requires Effect(ins).Some?
    ensures !ins.Jump? && !ins.ConditionalJump? && !ins.ListPopFirstOrElse? && !ins.PushHandler? && !ins.PopHandler?
            && !ins.Return?
  {
  }

  /** A row of instructions that climbs from one height to another. */
  lemma Row(fns: FnTable, code: seq<Slot>, q: nat, row: seq<Instruction>, heights: seq<nat>, ends: map<nat, nat>,
            l: Level, all: iset<(nat, Level)>)
    requires Are(code, q, row) && |heights| == |row| + 1 && Proper(l)
    requires forall i :: 0 <= i < |row| ==> Climbs(row[i], q, heights, ends, i)
    requires Cells(Rise(l, heights), q) <= all && forall to :: to in ends ==> (to, Up(l, ends[to])) in all
    ensures Leads(fns, code, Rise(l, heights), q, |row|, Up(l, heights[0]), Up(l, heights[|row|]), all)
  {
    hide GoesOn, Proper, Climbs, Cells;
    var ls := Rise(l, heights);
    forall i | 0 <= i < |heights| ensures Proper(ls[i]) && (q + i, Up(l, heights[i])) in all {
      UpProper(l, heights[i]);
      InCells(ls, q, i);
    }
    forall p | q <= p < q + |ls| - 1 ensures Stays(fns, code, ls, q, p, all) {
      assert code[q + (p - q)] == Ins(row[p - q]);
      ClimbGoes(all, row[p - q], q, heights, ends, l, p - q);
    }
  }

  /** A row that control only leaves at its end. */
  lemma Closed(fns: FnTable, code: seq<Slot>, q: nat, row: seq<Instruction>, heights: seq<nat>, l: Level)
    requires Are(code, q, row) && |heights| == |row| + 1 && Proper(l)
    requires forall i :: 0 <= i < |row| ==> Climbs(row[i], q, heights, map[], i)
    ensures Settles(fns, code, Rise(l, heights), q, |row|, Up(l, heights[0]), Up(l, heights[|row|]))
  {
    hide Climbs, Cells, Proper, Flows;
    Row(fns, code, q, row, heights, map[], l, Cells(Rise(l, heights), q));
  }

  /** An instruction that takes its `n` operands and leaves `k` values. */
  lemma Takes(fns: FnTable, code: seq<Slot>, pc: nat, ins: Instruction, l: Level, n: nat, k: nat)
    requires Is(code, pc, ins) && Effect(ins) == Some((n, k)) && Proper(l)
    ensures Settles(fns, code, Rise(l, [n, k]), pc, 1, Up(l, n), Up(l, k))
  {
    hide Effect, Proper, Settles;
    EffectOnly(ins);
    Closed(fns, code, pc, [ins], [n, k], l);
  }
}
