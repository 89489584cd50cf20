/** The compiler: one instruction list, appended to and patched in place. */
module Builder {
  import opened Common
  import opened Bytecode
  import opened Layout
  import opened Machine
  import opened Tokens
  import opened Ast
  import opened Source
  import opened Codegen
  import opened Supported
  import opened Frames

  /** A position of the list: nothing yet, or an instruction. */
  datatype Internal = Illegal | Real(ins: Instruction)

  /** A call whose target is not known yet. */
  datatype CallRef = CallRef(pos: nat, name: Str, ent: Option<nat>)

  /** A closure whose body has not been compiled yet. */
  datatype ClosureRef = ClosureRef(pos: nat, params: seq<Str>, captures: seq<Str>, body: seq<Stmt>, ent: Option<nat>)

  /** Instructions as slots. */
  function Slots(ins: seq<Instruction>): (r: seq<Slot>)
    ensures |r| == |ins|
    ensures forall i :: 0 <= i < |ins| ==> r[i] == Ins(ins[i])
  {
    if ins == [] then [] else [Ins(ins[0])] + Slots(ins[1..])
  }

  /** What the list holds for each slot; `bodies` tells the closures that have been linked. */
  ghost predicate Mirrors(ins: seq<Internal>, slots: seq<Slot>, bodies: map<nat, nat>) {
    && |ins| == |slots|
    && forall p :: 0 <= p < |slots| ==> Mirror(ins[p], slots[p], if p in bodies then Some(bodies[p]) else None)
  }

  ghost predicate Mirror(i: Internal, slot: Slot, body: Option<nat>) {
    match slot
    case Ins(ins) => i == Real(ins)
    case ClosureHole(params, captures, _, _) =>
      i == if body.Some? then Real(MakeClosure(body.value, |params|, LosslessJoin(params + captures))) else Illegal
    case _ => i.Illegal?
  }

  /** The recorded calls are exactly the call slots. */
  ghost predicate CallsRecorded(slots: seq<Slot>, calls: seq<CallRef>) {
    && (forall i :: 0 <= i < |calls| ==>
          calls[i].pos < |slots| && slots[calls[i].pos] == CallHole(calls[i].name, calls[i].ent))
    && (forall p :: 0 <= p < |slots| && slots[p].CallHole? ==> exists i :: 0 <= i < |calls| && calls[i].pos == p)
  }

  /** The queued closures are exactly the closure slots not linked yet, and each can be compiled. */
  ghost predicate ClosuresRecorded(fns: FnTable, slots: seq<Slot>, bodies: map<nat, nat>, queue: seq<ClosureRef>) {
    && (forall i :: 0 <= i < |queue| ==>
          && queue[i].pos < |slots| && queue[i].pos !in bodies
          && slots[queue[i].pos] == ClosureHole(queue[i].params, queue[i].captures, queue[i].body, queue[i].ent)
          && SupportedBody(Scope(fns, queue[i].ent), queue[i].body))
    && (forall i, j :: 0 <= i < j < |queue| ==> queue[i].pos != queue[j].pos)
    && (forall p :: 0 <= p < |slots| && slots[p].ClosureHole? && p !in bodies ==>
          exists i :: 0 <= i < |queue| && queue[i].pos == p)
  }

  /** Code operands stay below a bound. */
  ghost predicate Aimed(slots: seq<Slot>, bound: nat) {
    forall p :: 0 <= p < |slots| && slots[p].Ins? ==> Aims(slots[p].ins, bound)
  }

  /** Calls name blocks that exist. */
  ghost predicate Resolved(fns: FnTable, slots: seq<Slot>) {
    forall p :: 0 <= p < |slots| && slots[p].CallHole? ==> ResolveKey(fns, slots[p].ent, slots[p].name).Some?
  }

  /** Closures still to be compiled, with those inside them. */
  function Debt(queue: seq<ClosureRef>): nat {
    if queue == [] then 0 else 1 + LambdasBody(queue[0].body) + Debt(queue[1..])
  }

  lemma {:induction false} DebtSnoc(queue: seq<ClosureRef>, c: ClosureRef)
    ensures Debt(queue + [c]) == Debt(queue) + 1 + LambdasBody(c.body)
    decreases |queue|
  {
    if queue == [] {
      assert [] + [c] == [c] && [c][1..] == [];
    } else {
      assert (queue + [c])[1..] == queue[1..] + [c];
      DebtSnoc(queue[1..], c);
    }
  }

  /** Appending leaves what was there, adds `n` slots, and leaves none of them unpatched. */
  ghost predicate Grown(s: seq<Slot>, t: seq<Slot>, n: nat) {
    |t| == |s| + n && s <= t && forall p :: |s| <= p < |t| ==> !t[p].Pending?
  }

  ghost predicate Recorded(fns: FnTable, ins: seq<Internal>, slots: seq<Slot>, bodies: map<nat, nat>,
                           calls: seq<CallRef>, queue: seq<ClosureRef>) {
    && Mirrors(ins, slots, bodies) && CallsRecorded(slots, calls) && ClosuresRecorded(fns, slots, bodies, queue)
    && Aimed(slots, |slots| + 1) && Resolved(fns, slots) && (forall p :: p in bodies ==> p < |slots|)
  }

  lemma PushKeeps(fns: FnTable, ins: seq<Internal>, slots: seq<Slot>, bodies: map<nat, nat>, calls: seq<CallRef>,
                  queue: seq<ClosureRef>, i: Internal, slot: Slot)
    requires Recorded(fns, ins, slots, bodies, calls, queue)
    requires (slot.Pending? && i.Illegal?) || (slot.Ins? && i == Real(slot.ins) && Aims(slot.ins, |slots| + 1))
    ensures Recorded(fns, ins + [i], slots + [slot], bodies, calls, queue)
  {
    hide SupportedBody, ResolveKey;
    var s := slots + [slot];
    forall p | 0 <= p < |s| && s[p].Ins? ensures Aims(s[p].ins, |s| + 1) {
      if p < |slots| {
        assert Aims(slots[p].ins, |slots| + 1);
      }
    }
    forall p | 0 <= p < |s| && s[p].CallHole? ensures exists k :: 0 <= k < |calls| && calls[k].pos == p {
      assert slots[p].CallHole?;
    }
    forall p | 0 <= p < |s| && s[p].ClosureHole? && p !in bodies
      ensures exists k :: 0 <= k < |queue| && queue[k].pos == p
    {
      assert slots[p].ClosureHole?;
    }
  }

  lemma PatchKeeps(fns: FnTable, ins: seq<Internal>, slots: seq<Slot>, bodies: map<nat, nat>, calls: seq<CallRef>,
                   queue: seq<ClosureRef>, pos: nat, i: Instruction)
    requires Recorded(fns, ins, slots, bodies, calls, queue) && pos < |slots| && slots[pos].Pending?
             && Aims(i, |slots| + 1)
    ensures Recorded(fns, ins[pos := Real(i)], slots[pos := Ins(i)], bodies, calls, queue)
  {
    hide SupportedBody, ResolveKey;
    var s := slots[pos := Ins(i)];
    forall p | 0 <= p < |s| && s[p].Ins? ensures Aims(s[p].ins, |s| + 1) {
      if p != pos {
        assert Aims(slots[p].ins, |slots| + 1);
      }
    }
    forall p | 0 <= p < |s| && s[p].CallHole? ensures exists k :: 0 <= k < |calls| && calls[k].pos == p {
      assert slots[p].CallHole?;
    }
    forall p | 0 <= p < |s| && s[p].ClosureHole? && p !in bodies
      ensures exists k :: 0 <= k < |queue| && queue[k].pos == p
    {
      assert slots[p].ClosureHole?;
    }
  }

  lemma CallKeeps(fns: FnTable, ins: seq<Internal>, slots: seq<Slot>, bodies: map<nat, nat>, calls: seq<CallRef>,
                  queue: seq<ClosureRef>, name: Str, ent: Option<nat>)
    requires Recorded(fns, ins, slots, bodies, calls, queue) && ResolveKey(fns, ent, name).Some?
    ensures Recorded(fns, ins + [Illegal], slots + [CallHole(name, ent)], bodies,
                     calls + [CallRef(|slots|, name, ent)], queue)
  {
    hide SupportedBody, ResolveKey, LosslessJoin;
    var s, c := slots + [CallHole(name, ent)], calls + [CallRef(|slots|, name, ent)];
    forall p | 0 <= p < |s| && s[p].Ins? ensures Aims(s[p].ins, |s| + 1) {
      assert Aims(slots[p].ins, |slots| + 1);
    }
    forall p | 0 <= p < |s| && s[p].CallHole? ensures exists k :: 0 <= k < |c| && c[k].pos == p {
      if p < |slots| {
        assert slots[p].CallHole?;
        var k :| 0 <= k < |calls| && calls[k].pos == p;
        assert c[k].pos == p;
      } else {
        assert c[|calls|].pos == p;
      }
    }
    forall p | 0 <= p < |s| && s[p].ClosureHole? && p !in bodies
      ensures exists k :: 0 <= k < |queue| && queue[k].pos == p
    {
      assert slots[p].ClosureHole?;
    }
  }

  lemma ClosureKeeps(fns: FnTable, ins: seq<Internal>, slots: seq<Slot>, bodies: map<nat, nat>, calls: seq<CallRef>,
                     queue: seq<ClosureRef>, c: ClosureRef)
    requires Recorded(fns, ins, slots, bodies, calls, queue) && c.pos == |slots|
             && SupportedBody(Scope(fns, c.ent), c.body)
    ensures Recorded(fns, ins + [Illegal], slots + [ClosureHole(c.params, c.captures, c.body, c.ent)], bodies, calls,
                     queue + [c])
  {
    hide SupportedBody, ResolveKey;
    var s, q := slots + [ClosureHole(c.params, c.captures, c.body, c.ent)], queue + [c];
    forall p | 0 <= p < |s| && s[p].Ins? ensures Aims(s[p].ins, |s| + 1) {
      assert Aims(slots[p].ins, |slots| + 1);
    }
    forall p | 0 <= p < |s| && s[p].CallHole? ensures exists k :: 0 <= k < |calls| && calls[k].pos == p {
      assert slots[p].CallHole?;
    }
    forall p | 0 <= p < |s| && s[p].ClosureHole? && p !in bodies ensures exists k :: 0 <= k < |q| && q[k].pos == p {
      if p < |slots| {
        assert slots[p].ClosureHole?;
        var k :| 0 <= k < |queue| && queue[k].pos == p;
        assert q[k].pos == p;
      } else {
        assert q[|queue|].pos == p;
      }
    }
  }

  /** A stretch of known code being laid down behind `before`: `n` instructions of it are there, but for
      the positions still to be patched. */
  ghost predicate Laid(slots: seq<Slot>, before: seq<Slot>, code: seq<Instruction>, n: nat, holes: set<nat>) {
    && n <= |code| && |slots| == |before| + n && before <= slots && (forall h :: h in holes ==> h < n)
    && forall i :: 0 <= i < n ==> slots[|before| + i] == if i in holes then Pending else Ins(code[i])
  }

  lemma LaidStart(slots: seq<Slot>, code: seq<Instruction>)
    ensures Laid(slots, slots, code, 0, {})
  {
  }

  lemma LaidDone(slots: seq<Slot>, before: seq<Slot>, code: seq<Instruction>)
    requires Laid(slots, before, code, |code|, {})
    ensures Grown(before, slots, |code|) && Are(slots, |before|, code)
  {
    forall p | |before| <= p < |slots| ensures !slots[p].Pending? {
      var i := p - |before|;
      assert slots[|before| + i] == Ins(code[i]);
    }
  }

  predicate Stands(code: seq<Instruction>, k: nat, i: Instruction) {
    k < |code| && code[k] == i
  }

  lemma MapCodeStart(q: nat)
    ensures var c := MapCode(q);
            && |c| == 14 && Stands(c, 0, Variadic(MakeList, Dynamic)) && Stands(c, 1, Variadic(MakeList, Fixed(0)))
            && Stands(c, 2, DupeValue(2)) && Stands(c, 3, DupeValue(2)) && Stands(c, 4, ListPopFirstOrElse(q + 10))
  {
  }

  lemma MapCodeMiddle(q: nat)
    ensures var c := MapCode(q);
            && |c| == 14 && Stands(c, 5, CallClosure(false, 1)) && Stands(c, 6, DupeValue(1))
            && Stands(c, 7, ListInsertLast) && Stands(c, 8, Yield) && Stands(c, 9, Jump(q + 2))
  {
  }

  lemma MapCodeEnd(q: nat)
    ensures var c := MapCode(q);
            && |c| == 14 && Stands(c, 10, SwapValues(1, 3)) && Stands(c, 11, PopValue)
            && Stands(c, 12, PopValue) && Stands(c, 13, PopValue)
  {
  }

  lemma KeepCodeStart(q: nat)
    ensures var c := KeepCode(q);
            && |c| == 17 && Stands(c, 0, Variadic(MakeList, Dynamic)) && Stands(c, 1, Variadic(MakeList, Fixed(0)))
  {
  }

  lemma KeepCodeTop(q: nat)
    ensures var c := KeepCode(q);
            && |c| == 17 && Stands(c, 2, DupeValue(1)) && Stands(c, 3, ListPopFirstOrElse(q + 14))
            && Stands(c, 4, DupeValue(3))
  {
  }

  lemma KeepCodeMiddle(q: nat)
    ensures var c := KeepCode(q);
            && |c| == 17 && Stands(c, 5, DupeValue(1)) && Stands(c, 6, CallClosure(false, 1))
            && Stands(c, 7, ConditionalJump(q + 11, false)) && Stands(c, 8, DupeValue(1))
            && Stands(c, 9, ListInsertLast)
  {
  }

  lemma KeepCodeEnd(q: nat)
    ensures var c := KeepCode(q);
            && |c| == 17 && Stands(c, 10, Jump(q + 12)) && Stands(c, 11, PopValue)
            && Stands(c, 12, Yield) && Stands(c, 13, Jump(q + 2)) && Stands(c, 14, SwapValues(0, 2))
  {
  }

  lemma KeepCodeRest(q: nat)
    ensures var c := KeepCode(q);
            && |c| == 17 && Stands(c, 15, PopValue) && Stands(c, 16, PopValue)
  {
  }

  lemma FindCodeStart(q: nat)
    ensures var c := FindCode(q);
            && |c| == 14 && Stands(c, 0, Variadic(MakeList, Dynamic)) && Stands(c, 1, DupeValue(0))
            && Stands(c, 2, ListPopFirstOrElse(q + 10)) && Stands(c, 3, DupeValue(2)) && Stands(c, 4, DupeValue(1))
  {
  }

  lemma FindCodeMiddle(q: nat)
    ensures var c := FindCode(q);
            && |c| == 14 && Stands(c, 5, CallClosure(false, 1)) && Stands(c, 6, ConditionalJump(q + 11, true))
            && Stands(c, 7, PopValue) && Stands(c, 8, Yield) && Stands(c, 9, Jump(q + 1))
  {
  }

  lemma FindCodeEnd(q: nat)
    ensures var c := FindCode(q);
            && |c| == 14 && Stands(c, 10, PushString([])) && Stands(c, 11, SwapValues(0, 2))
            && Stands(c, 12, PopValue) && Stands(c, 13, PopValue)
  {
  }

  lemma FoldCodeStart(q: nat)
    ensures var c := FoldCode(q);
            && |c| == 15 && Stands(c, 0, DupeValue(1)) && Stands(c, 1, ListPopFirstOrElse(q + 11))
            && Stands(c, 2, DupeValue(1)) && Stands(c, 3, DupeValue(3)) && Stands(c, 4, ListPopFirstOrElse(q + 9))
  {
  }

  lemma FoldCodeMiddle(q: nat)
    ensures var c := FoldCode(q);
            && |c| == 15 && Stands(c, 5, SwapValues(1, 2)) && Stands(c, 6, CallClosure(false, 2))
            && Stands(c, 7, Yield) && Stands(c, 8, Jump(q + 2)) && Stands(c, 9, PopValue)
  {
  }

  lemma FoldCodeEnd(q: nat)
    ensures var c := FoldCode(q);
            && |c| == 15 && Stands(c, 10, Jump(q + 12)) && Stands(c, 11, PushInt(0))
            && Stands(c, 12, SwapValues(0, 2)) && Stands(c, 13, PopValue) && Stands(c, 14, PopValue)
  {
  }

  lemma PlainAims()
    ensures forall n :: Aims(PopValue, n)
    ensures forall n :: Aims(ListInsertLast, n)
    ensures forall n :: Aims(Yield, n)
    ensures forall n :: Aims(Return, n)
    ensures forall n :: Aims(ToBool, n)
    ensures forall n :: Aims(ToNum, n)
    ensures forall n :: Aims(WarpStart, n)
    ensures forall n :: Aims(WarpStop, n)
    ensures forall n :: Aims(PopHandler, n)
    ensures forall k, n :: Aims(DupeValue(k), n)
    ensures forall i, j, n :: Aims(SwapValues(i, j), n)
    ensures forall v, n :: Aims(PushInt(v), n)
    ensures forall text, n :: Aims(PushString(text), n)
    ensures forall op, n :: Aims(Binary(op), n)
    ensures forall op, n :: Aims(Unary(op), n)
    ensures forall r, n :: Aims(Cmp(r), n)
    ensures forall op, len, n :: Aims(Variadic(op, len), n)
    ensures forall b, args, n :: Aims(CallClosure(b, args), n)
    ensures forall name, n :: Aims(Assign(name), n)
    ensures forall name, op, n :: Aims(BinaryOpAssign(name, op), n)
    ensures forall name, n :: Aims(DeclareLocal(name), n)
    ensures forall name, n :: Aims(InitUpvar(name), n)
    ensures forall to, n :: to < n ==> Aims(Jump(to), n)
    ensures forall to, w, n :: to < n ==> Aims(ConditionalJump(to, w), n)
    ensures forall to, n :: to < n ==> Aims(ListPopFirstOrElse(to), n)
    ensures forall to, name, n :: to < n ==> Aims(PushHandler(to, name), n)
  {
  }

  lemma ShortIs(code: seq<Slot>, a: nat, aft: nat, decides: bool)
    requires a + 3 <= |code| && code[a] == Ins(DupeValue(0)) && code[a + 1] == Ins(ConditionalJump(aft, decides))
             && code[a + 2] == Ins(PopValue)
    ensures Are(code, a, ShortCode(aft, decides))
  {
  }

  lemma ShortBuilt(g: Scope, s0: seq<Slot>, s1: seq<Slot>, s2: seq<Slot>, t: seq<Slot>, head: seq<Slot>, left: Expr,
                   right: Expr, decides: bool)
    requires Grown(s0, s1, ExprLen(left)) && ExprAt(g, s1, left, |s0|)
             && head == [Ins(DupeValue(0)), Pending, Ins(PopValue)]
    requires Grown(s1 + head, s2, ExprLen(right)) && ExprAt(g, s2, right, |s1| + 3) && |s1| + 1 < |s2|
    requires t == s2[|s1| + 1 := Ins(ConditionalJump(|s2|, decides))] + [Ins(ToBool)]
    ensures Grown(s0, t, ExprLen(left) + ExprLen(right) + 4) && ShortAt(g, t, left, right, decides, |s0|)
  {
    hide *;
    ShortSlots(s0, s1, s2, t, head, decides, ExprLen(left), ExprLen(right));
    ExprKept(g, s1, t, left, |s0|);
    ExprKept(g, s2, t, right, |s1| + 3);
    ShortParts(g, t, left, right, decides, |s0|);
  }

  /** The code between the operands of a short-circuit block, and behind them. */
  lemma ShortSlots(s0: seq<Slot>, s1: seq<Slot>, s2: seq<Slot>, t: seq<Slot>, head: seq<Slot>, decides: bool, m: nat,
                   n: nat)
    requires Grown(s0, s1, m) && Grown(s1 + head, s2, n) && head == [Ins(DupeValue(0)), Pending, Ins(PopValue)]
    requires |s1| + 1 < |s2| && t == s2[|s1| + 1 := Ins(ConditionalJump(|s2|, decides))] + [Ins(ToBool)]
    ensures |s1| == |s0| + m && |s2| == |s1| + 3 + n && Grown(s0, t, m + n + 4)
    ensures Agree(s1, t, |s0|, m) && Agree(s2, t, |s1| + 3, n) && Are(t, |s1|, ShortCode(|s2|, decides))
            && Is(t, |s2|, ToBool)
  {
    hide *;
    var a, x, end := |s1|, Ins(ConditionalJump(|s2|, decides)), [Ins(ToBool)];
    assert s2 + [] == s2;
    LoopSlots(s0, s1, s2, t, m, head, 1, x, [], end, n);
    assert t[a + 0] == head[0] && t[a + 1] == x && t[a + 2] == head[2] && t[|s2| + 0 + 0] == end[0];
    ShortIs(t, a, |s2|, decides);
    OneIs(t, |s2|, ToBool);
  }

  lemma LinkKeeps(fns: FnTable, ins: seq<Internal>, slots: seq<Slot>, bodies: map<nat, nat>, calls: seq<CallRef>,
                  queue: seq<ClosureRef>, pos: nat)
    requires Recorded(fns, ins, slots, bodies, calls, queue) && queue != []
    ensures var c := queue[0];
            && c.pos < |ins| && c.pos !in bodies && slots[c.pos] == ClosureHole(c.params, c.captures, c.body, c.ent)
            && SupportedBody(Scope(fns, c.ent), c.body)
            && Recorded(fns, ins[c.pos := Real(MakeClosure(pos, |c.params|, LosslessJoin(c.params + c.captures)))],
                        slots, bodies[c.pos := pos], calls, queue[1..])
  {
    hide SupportedBody, ResolveKey, Aims, LosslessJoin;
    var c := queue[0];
    var b, q := bodies[c.pos := pos], queue[1..];
    forall p | 0 <= p < |slots| && slots[p].ClosureHole? && p !in b ensures exists k :: 0 <= k < |q| && q[k].pos == p {
      assert slots[p].ClosureHole?;
      var k :| 0 <= k < |queue| && queue[k].pos == p;
      assert q[k - 1].pos == p;
    }
  }

  class Builder {
    ghost const fns: FnTable
    var ins: seq<Internal>
    var callHoles: seq<CallRef>
    var closureHoles: seq<ClosureRef>
    ghost var slots: seq<Slot>
    ghost var bodies: map<nat, nat>

    ghost predicate Valid()
      reads this
    {
      |ins| == |slots| && Recorded(fns, ins, slots, bodies, callHoles, closureHoles)
    }

    constructor (ghost fns: FnTable)
      ensures Valid() && this.fns == fns && slots == [] && bodies == map[] && closureHoles == [] && callHoles == []
    {
      hide Aims, LosslessJoin, SupportedBody;
      this.fns := fns;
      ins, callHoles, closureHoles := [], [], [];
      slots, bodies := [], map[];
    }

    lemma Sized()
      requires Valid()
      ensures |ins| == |slots|
    {
      hide Recorded;
    }

    method Here() returns (pos: nat)
      requires Valid()
      ensures pos == |slots|
    {
      hide Recorded;
      pos := |ins|;
    }

    method Push(i: Instruction)
      requires Valid() && Aims(i, |slots| + 1)
      modifies this`ins, this`slots
      ensures Valid() && slots == old(slots) + [Ins(i)] && |ins| == |slots|
    {
      hide LosslessJoin, SupportedBody;
      PushKeeps(fns, ins, slots, bodies, callHoles, closureHoles, Real(i), Ins(i));
      ins := ins + [Real(i)];
      slots := slots + [Ins(i)];
    }

    /** A position to be patched. */
    method Hole()
      requires Valid()
      modifies this`ins, this`slots
      ensures Valid() && slots == old(slots) + [Pending] && |ins| == |slots|
    {
      hide LosslessJoin, SupportedBody;
      PushKeeps(fns, ins, slots, bodies, callHoles, closureHoles, Illegal, Pending);
      ins := ins + [Illegal];
      slots := slots + [Pending];
    }

    method Patch(pos: nat, i: Instruction)
      requires Valid() && pos < |slots| && slots[pos].Pending? && Aims(i, |slots| + 1)
      modifies this`ins, this`slots
      ensures Valid() && slots == old(slots)[pos := Ins(i)] && |ins| == |slots|
    {
      hide LosslessJoin, SupportedBody;
      PatchKeeps(fns, ins, slots, bodies, callHoles, closureHoles, pos, i);
      ins := ins[pos := Real(i)];
      slots := slots[pos := Ins(i)];
    }

    method PushCall(name: Str, ent: Option<nat>)
      requires Valid() && ResolveKey(fns, ent, name).Some?
      modifies this`ins, this`slots, this`callHoles
      ensures Valid() && slots == old(slots) + [CallHole(name, ent)]
    {
      hide Aims, LosslessJoin, SupportedBody;
      CallKeeps(fns, ins, slots, bodies, callHoles, closureHoles, name, ent);
      callHoles := callHoles + [CallRef(|ins|, name, ent)];
      ins := ins + [Illegal];
      slots := slots + [CallHole(name, ent)];
    }

    method PushClosure(params: seq<Str>, captures: seq<Str>, body: seq<Stmt>, ent: Option<nat>)
      requires Valid() && SupportedBody(Scope(fns, ent), body)
      modifies this`ins, this`slots, this`closureHoles
      ensures Valid() && slots == old(slots) + [ClosureHole(params, captures, body, ent)]
      ensures closureHoles == old(closureHoles) + [ClosureRef(|old(slots)|, params, captures, body, ent)]
    {
      hide Aims, LosslessJoin, SupportedStmt;
      var c := ClosureRef(|ins|, params, captures, body, ent);
      ClosureKeeps(fns, ins, slots, bodies, callHoles, closureHoles, c);
      closureHoles := closureHoles + [c];
      ins := ins + [Illegal];
      slots := slots + [ClosureHole(params, captures, body, ent)];
    }

    // ----- stretches of known code -----

    /** The next instruction of a stretch. */
    method Emit(i: Instruction, ghost before: seq<Slot>, ghost code: seq<Instruction>, ghost n: nat,
                ghost holes: set<nat>)
      requires Valid() && Laid(slots, before, code, n, holes) && Stands(code, n, i) && Aims(i, |slots| + 1)
      modifies this`ins, this`slots
      ensures Valid() && Laid(slots, before, code, n + 1, holes) && |ins| == |slots| == |before| + n + 1
    {
      hide Recorded;
      Push(i);
    }

    /** A position of a stretch that is patched later. */
    method Skip(ghost before: seq<Slot>, ghost code: seq<Instruction>, ghost n: nat, ghost holes: set<nat>,
                ghost holes': set<nat>)
      requires Valid() && Laid(slots, before, code, n, holes) && n < |code| && holes' == holes + {n}
      modifies this`ins, this`slots
      ensures Valid() && Laid(slots, before, code, n + 1, holes') && |ins| == |slots| == |before| + n + 1
    {
      hide Recorded;
      Hole();
    }

    method Fill(pos: nat, i: Instruction, ghost before: seq<Slot>, ghost code: seq<Instruction>, ghost n: nat,
                ghost holes: set<nat>, ghost k: nat, ghost holes': set<nat>)
      requires Valid() && Laid(slots, before, code, n, holes) && k < n && pos == |before| + k && Stands(code, k, i)
               && Aims(i, |slots| + 1)
      requires k in holes && holes' == holes - {k}
      modifies this`ins, this`slots
      ensures Valid() && Laid(slots, before, code, n, holes') && |ins| == |slots| == |before| + n
    {
      hide Recorded;
      Patch(pos, i);
    }

    // ----- literals and operand lists -----

    method AppendValue(v: Lit)
      requires Valid()
      modifies this`ins, this`slots
      ensures Valid() && Grown(old(slots), slots, LitLen(v)) && LitAt(slots, v, |old(slots)|)
      decreases v
    {
      hide Recorded;
      match v
      case NumLit(bits) => Push(PushNumber(bits));
      case TxtLit(text) => Push(PushString(text));
      case BoolLit(b) => Push(PushBool(b));
      case ListLit(items) =>
        AppendValues(items);
        ghost var s := slots;
        Push(Variadic(MakeList, Fixed(|items|)));
        LitsKept(s, slots, items, |old(slots)|);
    }

    method AppendValues(vs: seq<Lit>)
      requires Valid()
      modifies this`ins, this`slots
      ensures Valid() && Grown(old(slots), slots, LitsLen(vs)) && LitsAt(slots, vs, |old(slots)|)
      decreases vs
    {
      hide Recorded, Is;
      ghost var pc := |slots|;
      for k := 0 to |vs|
        invariant Valid() && Grown(old(slots), slots, LitsLen(vs[..k])) && LitsAt(slots, vs[..k], pc)
      {
        ghost var s := slots;
        AppendValue(vs[k]);
        LitsKept(s, slots, vs[..k], pc);
        LitsSnoc(slots, vs[..k], vs[k], pc);
        assert vs[..k] + [vs[k]] == vs[..k + 1];
      }
      assert vs[..|vs|] == vs;
    }

    method AppendExprs(es: seq<Expr>, ent: Option<nat>)
      requires Valid() && SupportedAll(Scope(fns, ent), es)
      modifies this`ins, this`slots, this`callHoles, this`closureHoles
      ensures Valid() && Grown(old(slots), slots, ExprsLen(es))
      ensures ExprsAt(Scope(fns, ent), slots, es, |old(slots)|)
      ensures Debt(closureHoles) == old(Debt(closureHoles)) + LambdasAll(es)
      decreases ExprsLen(es), |es| + 2
    {
      hide Recorded, ExprAt, SupportedExpr, ExprLen, LambdasExpr, Debt;
      ghost var pc, g := |slots|, Scope(fns, ent);
      for k := 0 to |es|
        invariant Valid() && Grown(old(slots), slots, ExprsLen(es[..k])) && ExprsAt(g, slots, es[..k], pc)
        invariant Debt(closureHoles) == old(Debt(closureHoles)) + LambdasAll(es[..k])
      {
        ghost var s := slots;
        ExprsSize(es, k);
        AppendExpr(es[k], ent);
        ExprsKept(g, s, slots, es[..k], pc);
        ExprsSnoc(g, slots, es[..k], es[k], pc);
        LambdasSnoc(es[..k], es[k]);
        assert es[..k] + [es[k]] == es[..k + 1];
      }
      assert es[..|es|] == es;
    }

    method PushDeclares(names: seq<Str>)
      requires Valid()
      modifies this`ins, this`slots
      ensures Valid() && Grown(old(slots), slots, |names|) && DeclaresAt(slots, names, |old(slots)|)
    {
      hide Recorded;
      ghost var pc := |slots|;
      for k := 0 to |names|
        invariant Valid() && Grown(old(slots), slots, k) && forall i :: 0 <= i < k ==>
                    slots[pc + i] == Ins(DeclareLocal(names[i]))
      {
        Push(DeclareLocal(names[k]));
      }
    }

    // ----- expressions -----

    method AppendExpr(e: Expr, ent: Option<nat>)
      requires Valid() && SupportedExpr(Scope(fns, ent), e)
      modifies this`ins, this`slots, this`callHoles, this`closureHoles
      ensures Valid() && Grown(old(slots), slots, ExprLen(e))
      ensures ExprAt(Scope(fns, ent), slots, e, |old(slots)|)
      ensures Debt(closureHoles) == old(Debt(closureHoles)) + LambdasExpr(e)
      decreases ExprLen(e), 1
    {
      hide Recorded, ExprAt, SupportedExpr, ExprLen, LambdasExpr, Debt, Grown;
      match e
      case Simple(op, args) => AppendSimple(op, args, ent);
      case Reduce(_, _) => AppendReduce(e, ent);
      case Conditional(cond, then_, else_) => AppendConditional(cond, then_, else_, ent);
      case CallFn(name, args, upvars) => AppendCallFn(name, args, upvars, ent);
      case CallValue(f, args) => AppendCallValue(f, args, ent);
      case Map(f, list) => AppendMap(f, list, ent);
      case Keep(f, list) => AppendKeep(f, list, ent);
      case FindFirst(f, list) => AppendFind(f, list, ent);
      case FoldWith(f, list) => AppendFold(f, list, ent);
      case _ => AppendBasic(e, ent);
    }

    method AppendBasic(e: Expr, ent: Option<nat>)
      requires Valid() && SupportedExpr(Scope(fns, ent), e)
               && (e.Literal? || e.Variable? || e.ListOf? || e.Or? || e.And? || e.Lambda?)
      modifies this`ins, this`slots, this`callHoles, this`closureHoles
      ensures Valid() && Grown(old(slots), slots, ExprLen(e))
      ensures ExprAt(Scope(fns, ent), slots, e, |old(slots)|)
      ensures Debt(closureHoles) == old(Debt(closureHoles)) + LambdasExpr(e)
      decreases ExprLen(e), 0
    {
      hide Recorded, LitAt, ExprsAt, ShortAt, SupportedAll, SupportedBody, LambdasAll, LambdasBody, NulFree;
      ghost var pc, g := |slots|, Scope(fns, ent);
      if e.Literal? {
        AppendValue(e.v);
      } else if e.Variable? {
        Push(PushVariable(e.name));
      } else if e.ListOf? {
        AppendExprs(e.items, ent);
        ghost var s := slots;
        Push(Variadic(MakeList, Fixed(|e.items|)));
        ExprsKept(g, s, slots, e.items, pc);
      } else if e.Lambda? {
        DebtSnoc(closureHoles, ClosureRef(|ins|, e.params, e.captures, e.body, ent));
        PushClosure(e.params, e.captures, e.body, ent);
      } else {
        AppendShort(e.left, e.right, e.Or?, ent);
      }
    }

    method AppendSimple(op: SimpleOp, args: seq<Expr>, ent: Option<nat>)
      requires Valid() && SupportedExpr(Scope(fns, ent), Simple(op, args))
      modifies this`ins, this`slots, this`callHoles, this`closureHoles
      ensures Valid() && Grown(old(slots), slots, ExprLen(Simple(op, args)))
      ensures ExprAt(Scope(fns, ent), slots, Simple(op, args), |old(slots)|)
      ensures Debt(closureHoles) == old(Debt(closureHoles)) + LambdasExpr(Simple(op, args))
      decreases ExprLen(Simple(op, args)), 0
    {
      hide Recorded, ExprAt, ExprsAt, ExprsLen, LambdasAll, SupportedAll, Debt, Arity, Callable, LambdasBody, LitLen;
      hide LitsLen, NulFree, SupportedBody;
      ghost var pc, g := |slots|, Scope(fns, ent);
      SimpleParts(g, slots, op, args, pc);
      AppendExprs(args, ent);
      ghost var s := slots;
      LowerAims(op, |slots|);
      Push(Lower(op));
      ExprsKept(g, s, slots, args, pc);
      SimpleParts(g, slots, op, args, pc);
    }

    /** A variadic operator: over operands spelled out, their number is fixed. */
    method AppendReduce(e: Expr, ent: Option<nat>)
      requires Valid() && SupportedExpr(Scope(fns, ent), e) && e.Reduce?
      modifies this`ins, this`slots, this`callHoles, this`closureHoles
      ensures Valid() && Grown(old(slots), slots, ExprLen(e))
      ensures ExprAt(Scope(fns, ent), slots, e, |old(slots)|)
      ensures Debt(closureHoles) == old(Debt(closureHoles)) + LambdasExpr(e)
      decreases ExprLen(e), 0
    {
      hide Recorded, ExprsAt, LitsAt, LitAt, ShortAt, SupportedAll, LambdasAll, Debt, Are;
      ghost var pc, g := |slots|, Scope(fns, ent);
      if e.src.Literal? && e.src.v.ListLit? {
        AppendValues(e.src.v.items);
        ghost var s := slots;
        Push(Variadic(e.vop, Fixed(|e.src.v.items|)));
        LitsKept(s, slots, e.src.v.items, pc);
      } else if e.src.ListOf? {
        AppendExprs(e.src.items, ent);
        ghost var s := slots;
        Push(Variadic(e.vop, Fixed(|e.src.items|)));
        ExprsKept(g, s, slots, e.src.items, pc);
      } else {
        AppendExpr(e.src, ent);
        ghost var s := slots;
        Push(Variadic(e.vop, Dynamic));
        ExprKept(g, s, slots, e.src, pc);
      }
    }

    method AppendConditional(cond: Expr, then_: Expr, else_: Expr, ent: Option<nat>)
      requires Valid() && SupportedExpr(Scope(fns, ent), Conditional(cond, then_, else_))
      modifies this`ins, this`slots, this`callHoles, this`closureHoles
      ensures Valid() && Grown(old(slots), slots, ExprLen(Conditional(cond, then_, else_)))
      ensures ExprAt(Scope(fns, ent), slots, Conditional(cond, then_, else_), |old(slots)|)
      ensures Debt(closureHoles) == old(Debt(closureHoles)) + LambdasExpr(Conditional(cond, then_, else_))
      decreases ExprLen(Conditional(cond, then_, else_)), 0
    {
      hide *;
      PlainAims();
      ConditionalOk(Scope(fns, ent), cond, then_, else_);
      ConditionalLen(cond, then_, else_);
      ghost var s0, g := slots, Scope(fns, ent);
      AppendExpr(cond, ent);
      ghost var s1 := slots;
      Sized();
      var testPos := |ins|;
      Hole();
      AppendExpr(then_, ent);
      ghost var s2 := slots;
      Sized();
      var jumpAftPos := |ins|;
      Hole();
      var testFalsePos := |ins|;
      AppendExpr(else_, ent);
      ghost var s3 := slots;
      Sized();
      var aftPos := |ins|;
      StillOpen(s1 + [Pending], s2, ExprLen(then_), testPos);
      StillOpen(s2 + [Pending], s3, ExprLen(else_), testPos);
      StillOpen(s2 + [Pending], s3, ExprLen(else_), jumpAftPos);
      Patch(testPos, ConditionalJump(testFalsePos, false));
      Patch(jumpAftPos, Jump(aftPos));
      ConditionalBuilt(g, s0, s1, s2, s3, slots, cond, then_, else_);
    }

    /** Short circuit: the code of "or" and "and" differs in which outcome skips the second operand. */
    method AppendShort(left: Expr, right: Expr, decides: bool, ent: Option<nat>)
      requires Valid() && SupportedExpr(Scope(fns, ent), left) && SupportedExpr(Scope(fns, ent), right)
      modifies this`ins, this`slots, this`callHoles, this`closureHoles
      ensures Valid() && Grown(old(slots), slots, ExprLen(left) + ExprLen(right) + 4)
      ensures ShortAt(Scope(fns, ent), slots, left, right, decides, |old(slots)|)
      ensures Debt(closureHoles) == old(Debt(closureHoles)) + LambdasExpr(left) + LambdasExpr(right)
      decreases ExprLen(left) + ExprLen(right), 2
    {
      hide *;
      PlainAims();
      ghost var s0, g := slots, Scope(fns, ent);
      AppendExpr(left, ent);
      ghost var s1 := slots;
      Sized();
      Push(DupeValue(0));
      var checkPos := |ins|;
      Hole();
      Push(PopValue);
      ghost var head := [Ins(DupeValue(0)), Pending, Ins(PopValue)];
      assert slots == s1 + head;
      AppendExpr(right, ent);
      Sized();
      ghost var s2 := slots;
      var aft := |ins|;
      StillOpen(s1 + head, s2, ExprLen(right), checkPos);
      Patch(checkPos, ConditionalJump(aft, decides));
      Push(ToBool);
      ShortBuilt(g, s0, s1, s2, slots, head, left, right, decides);
    }

    method AppendCallFn(name: Str, args: seq<Expr>, upvars: seq<Str>, ent: Option<nat>)
      requires Valid() && SupportedExpr(Scope(fns, ent), CallFn(name, args, upvars))
      modifies this`ins, this`slots, this`callHoles, this`closureHoles
      ensures Valid() && Grown(old(slots), slots, ExprLen(CallFn(name, args, upvars)))
      ensures ExprAt(Scope(fns, ent), slots, CallFn(name, args, upvars), |old(slots)|)
      ensures Debt(closureHoles) == old(Debt(closureHoles)) + LambdasExpr(CallFn(name, args, upvars))
      decreases ExprLen(CallFn(name, args, upvars)), 0
    {
      hide Recorded, Debt, ExprAt, ExprsAt, ExprsLen, LambdasAll, SupportedAll, DeclaresAt, Arity, LambdasBody;
      hide LitLen, LitsLen, Lower, NulFree, SupportedBody;
      ghost var pc, g := |slots|, Scope(fns, ent);
      CallFnParts(g, slots, name, args, upvars, pc);
      PushDeclares(upvars);
      ghost var s1 := slots;
      AppendExprs(args, ent);
      ghost var s2 := slots;
      PushCall(name, ent);
      DeclaresKept(s1, slots, upvars, pc);
      ExprsKept(g, s2, slots, args, pc + |upvars|);
      CallFnParts(g, slots, name, args, upvars, pc);
    }

    method AppendCallValue(f: Expr, args: seq<Expr>, ent: Option<nat>)
      requires Valid() && SupportedExpr(Scope(fns, ent), CallValue(f, args))
      modifies this`ins, this`slots, this`callHoles, this`closureHoles
      ensures Valid() && Grown(old(slots), slots, ExprLen(CallValue(f, args)))
      ensures ExprAt(Scope(fns, ent), slots, CallValue(f, args), |old(slots)|)
      ensures Debt(closureHoles) == old(Debt(closureHoles)) + LambdasExpr(CallValue(f, args))
      decreases ExprLen(CallValue(f, args)), 0
    {
      hide Recorded, Aims, Debt, ExprAt, ExprsAt, ExprsLen, LambdasAll, SupportedAll, DeclaresAt, Arity, Callable;
      hide LambdasBody, LitLen, LitsLen, Lower, NulFree, SupportedBody;
      PlainAims();
      ghost var pc, g := |slots|, Scope(fns, ent);
      CallValueParts(g, slots, f, args, pc);
      AppendExpr(f, ent);
      ghost var s1 := slots;
      AppendExprs(args, ent);
      ghost var s2 := slots;
      Push(CallClosure(false, |args|));
      ExprKept(g, s1, slots, f, pc);
      ExprsKept(g, s2, slots, args, pc + ExprLen(f));
      CallValueParts(g, slots, f, args, pc);
    }

    method AppendMap(f: Expr, list: Expr, ent: Option<nat>)
      requires Valid() && SupportedExpr(Scope(fns, ent), Map(f, list))
      modifies this`ins, this`slots, this`callHoles, this`closureHoles
      ensures Valid() && Grown(old(slots), slots, ExprLen(Map(f, list)))
      ensures ExprAt(Scope(fns, ent), slots, Map(f, list), |old(slots)|)
      ensures Debt(closureHoles) == old(Debt(closureHoles)) + LambdasExpr(Map(f, list))
      decreases ExprLen(Map(f, list)), 0
    {
      hide Recorded, Debt, ExprAt, ExprLen, Are, MapCode, LambdasExpr, SupportedExpr;
      ghost var pc, g := |slots|, Scope(fns, ent);
      MapParts(g, slots, f, list, pc);
      HigherOk(g, f, list);
      AppendExpr(f, ent);
      ghost var s1 := slots;
      AppendExpr(list, ent);
      ghost var s2, q := slots, |slots|;
      AppendMapLoop();
      ExprKept(g, s1, slots, f, pc);
      ExprKept(g, s2, slots, list, pc + ExprLen(f));
      MapParts(g, slots, f, list, pc);
    }

    method AppendMapLoop()
      requires Valid()
      modifies this`ins, this`slots
      ensures Valid() && Grown(old(slots), slots, 14) && Are(slots, |old(slots)|, MapCode(|old(slots)|))
    {
      hide *;
      MapCodeStart(|slots|);
      MapCodeMiddle(|slots|);
      MapCodeEnd(|slots|);
      PlainAims();
      ghost var b, c := slots, MapCode(|slots|);
      LaidStart(slots, c);
      Emit(Variadic(MakeList, Dynamic), b, c, 0, {}); // shallow copy the input list, and an empty list
      Emit(Variadic(MakeList, Fixed(0)), b, c, 1, {});
      var top := |ins|;
      Emit(DupeValue(2), b, c, 2, {});
      Emit(DupeValue(2), b, c, 3, {});
      var exitJumpPos := |ins|;
      Skip(b, c, 4, {}, {4});
      Emit(CallClosure(false, 1), b, c, 5, {4});
      Emit(DupeValue(1), b, c, 6, {4});
      Emit(ListInsertLast, b, c, 7, {4});
      Emit(Yield, b, c, 8, {4});
      Emit(Jump(top), b, c, 9, {4});
      var aft := |ins|;
      Fill(exitJumpPos, ListPopFirstOrElse(aft), b, c, 10, {4}, 4, {});
      Emit(SwapValues(1, 3), b, c, 10, {});
      Emit(PopValue, b, c, 11, {});
      Emit(PopValue, b, c, 12, {});
      Emit(PopValue, b, c, 13, {});
      LaidDone(slots, b, c);
    }

    method AppendKeep(f: Expr, list: Expr, ent: Option<nat>)
      requires Valid() && SupportedExpr(Scope(fns, ent), Keep(f, list))
      modifies this`ins, this`slots, this`callHoles, this`closureHoles
      ensures Valid() && Grown(old(slots), slots, ExprLen(Keep(f, list)))
      ensures ExprAt(Scope(fns, ent), slots, Keep(f, list), |old(slots)|)
      ensures Debt(closureHoles) == old(Debt(closureHoles)) + LambdasExpr(Keep(f, list))
      decreases ExprLen(Keep(f, list)), 0
    {
      hide Recorded, Debt, ExprAt, ExprLen, Are, KeepCode, LambdasExpr, SupportedExpr;
      ghost var pc, g := |slots|, Scope(fns, ent);
      KeepParts(g, slots, f, list, pc);
      HigherOk(g, f, list);
      AppendExpr(f, ent);
      ghost var s1 := slots;
      AppendExpr(list, ent);
      ghost var s2, q := slots, |slots|;
      AppendKeepLoop();
      ExprKept(g, s1, slots, f, pc);
      ExprKept(g, s2, slots, list, pc + ExprLen(f));
      KeepParts(g, slots, f, list, pc);
    }

    method AppendKeepTop(ghost b: seq<Slot>, ghost c: seq<Instruction>) returns (top: nat, exitJumpPos: nat)
      requires Valid() && Laid(slots, b, c, 0, {}) && c == KeepCode(|b|) && |slots| == |b|
      modifies this`ins, this`slots
      ensures Valid() && Laid(slots, b, c, 7, {3}) && |ins| == |slots| == |b| + 7 && top == |b| + 2
              && exitJumpPos == |b| + 3
    {
      hide *;
      KeepCodeStart(|b|);
      KeepCodeTop(|b|);
      KeepCodeMiddle(|b|);
      PlainAims();
      Emit(Variadic(MakeList, Dynamic), b, c, 0, {}); // shallow copy the input list, and an empty list
      Emit(Variadic(MakeList, Fixed(0)), b, c, 1, {});
      top := |ins|;
      Emit(DupeValue(1), b, c, 2, {});
      exitJumpPos := |ins|;
      Skip(b, c, 3, {}, {3});
      Emit(DupeValue(3), b, c, 4, {3});
      Emit(DupeValue(1), b, c, 5, {3});
      Emit(CallClosure(false, 1), b, c, 6, {3});
    }

    method AppendKeepLoop()
      requires Valid()
      modifies this`ins, this`slots
      ensures Valid() && Grown(old(slots), slots, 17) && Are(slots, |old(slots)|, KeepCode(|old(slots)|))
    {
      hide *;
      KeepCodeStart(|slots|);
      KeepCodeTop(|slots|);
      KeepCodeMiddle(|slots|);
      KeepCodeEnd(|slots|);
      KeepCodeRest(|slots|);
      PlainAims();
      ghost var b, c := slots, KeepCode(|slots|);
      LaidStart(slots, c);
      var top, exitJumpPos := AppendKeepTop(b, c);
      var skipAppendPos := |ins|;
      Skip(b, c, 7, {3}, {3, 7});
      Emit(DupeValue(1), b, c, 8, {3, 7});
      Emit(ListInsertLast, b, c, 9, {3, 7});
      var keptJumpPos := |ins|;
      Skip(b, c, 10, {3, 7}, {3, 7, 10});
      var popCont := |ins|;
      Emit(PopValue, b, c, 11, {3, 7, 10});
      var cont := |ins|;
      Emit(Yield, b, c, 12, {3, 7, 10});
      Emit(Jump(top), b, c, 13, {3, 7, 10});
      var aft := |ins|;
      Fill(exitJumpPos, ListPopFirstOrElse(aft), b, c, 14, {3, 7, 10}, 3, {7, 10});
      Fill(skipAppendPos, ConditionalJump(popCont, false), b, c, 14, {7, 10}, 7, {10});
      Fill(keptJumpPos, Jump(cont), b, c, 14, {10}, 10, {});
      Emit(SwapValues(0, 2), b, c, 14, {});
      Emit(PopValue, b, c, 15, {});
      Emit(PopValue, b, c, 16, {});
      LaidDone(slots, b, c);
    }

    method AppendFind(f: Expr, list: Expr, ent: Option<nat>)
      requires Valid() && SupportedExpr(Scope(fns, ent), FindFirst(f, list))
      modifies this`ins, this`slots, this`callHoles, this`closureHoles
      ensures Valid() && Grown(old(slots), slots, ExprLen(FindFirst(f, list)))
      ensures ExprAt(Scope(fns, ent), slots, FindFirst(f, list), |old(slots)|)
      ensures Debt(closureHoles) == old(Debt(closureHoles)) + LambdasExpr(FindFirst(f, list))
      decreases ExprLen(FindFirst(f, list)), 0
    {
      hide Recorded, Debt, ExprAt, ExprLen, Are, FindCode, LambdasExpr, SupportedExpr;
      ghost var pc, g := |slots|, Scope(fns, ent);
      FindParts(g, slots, f, list, pc);
      HigherOk(g, f, list);
      AppendExpr(f, ent);
      ghost var s1 := slots;
      AppendExpr(list, ent);
      ghost var s2, q := slots, |slots|;
      AppendFindLoop();
      ExprKept(g, s1, slots, f, pc);
      ExprKept(g, s2, slots, list, pc + ExprLen(f));
      FindParts(g, slots, f, list, pc);
    }

    method AppendFindTop(ghost b: seq<Slot>, ghost c: seq<Instruction>) returns (top: nat, exitJumpPos: nat)
      requires Valid() && Laid(slots, b, c, 0, {}) && c == FindCode(|b|) && |slots| == |b|
      modifies this`ins, this`slots
      ensures Valid() && Laid(slots, b, c, 6, {2}) && |ins| == |slots| == |b| + 6 && top == |b| + 1
              && exitJumpPos == |b| + 2
    {
      hide *;
      FindCodeStart(|b|);
      FindCodeMiddle(|b|);
      FindCodeEnd(|b|);
      PlainAims();
      Emit(Variadic(MakeList, Dynamic), b, c, 0, {}); // shallow copy the input list
      top := |ins|;
      Emit(DupeValue(0), b, c, 1, {});
      exitJumpPos := |ins|;
      Skip(b, c, 2, {}, {2});
      Emit(DupeValue(2), b, c, 3, {2});
      Emit(DupeValue(1), b, c, 4, {2});
      Emit(CallClosure(false, 1), b, c, 5, {2});
    }

    method AppendFindLoop()
      requires Valid()
      modifies this`ins, this`slots
      ensures Valid() && Grown(old(slots), slots, 14) && Are(slots, |old(slots)|, FindCode(|old(slots)|))
    {
      hide *;
      FindCodeStart(|slots|);
      FindCodeMiddle(|slots|);
      FindCodeEnd(|slots|);
      PlainAims();
      ghost var b, c := slots, FindCode(|slots|);
      LaidStart(slots, c);
      var top, exitJumpPos := AppendFindTop(b, c);
      var skipJumpPos := |ins|;
      Skip(b, c, 6, {2}, {2, 6});
      Emit(PopValue, b, c, 7, {2, 6});
      Emit(Yield, b, c, 8, {2, 6});
      Emit(Jump(top), b, c, 9, {2, 6});
      var aftLoop := |ins|;
      Emit(PushString([]), b, c, 10, {2, 6});
      var ret := |ins|;
      Emit(SwapValues(0, 2), b, c, 11, {2, 6});
      Emit(PopValue, b, c, 12, {2, 6});
      Emit(PopValue, b, c, 13, {2, 6});
      Fill(exitJumpPos, ListPopFirstOrElse(aftLoop), b, c, 14, {2, 6}, 2, {6});
      Fill(skipJumpPos, ConditionalJump(ret, true), b, c, 14, {6}, 6, {});
      LaidDone(slots, b, c);
    }

    method AppendFold(f: Expr, list: Expr, ent: Option<nat>)
      requires Valid() && SupportedExpr(Scope(fns, ent), FoldWith(f, list))
      modifies this`ins, this`slots, this`callHoles, this`closureHoles
      ensures Valid() && Grown(old(slots), slots, ExprLen(FoldWith(f, list)))
      ensures ExprAt(Scope(fns, ent), slots, FoldWith(f, list), |old(slots)|)
      ensures Debt(closureHoles) == old(Debt(closureHoles)) + LambdasExpr(FoldWith(f, list))
      decreases ExprLen(FoldWith(f, list)), 0
    {
      hide Recorded, Debt, ExprAt, ExprLen, Are, FoldCode, LambdasExpr, SupportedExpr;
      ghost var pc, g := |slots|, Scope(fns, ent);
      FoldParts(g, slots, f, list, pc);
      HigherOk(g, f, list);
      AppendExpr(list, ent);
      ghost var s1 := slots;
      Push(Variadic(MakeList, Dynamic)); // shallow copy the input list
      AppendExpr(f, ent);
      ghost var s2, q := slots, |slots|;
      AppendFoldLoop();
      ExprKept(g, s1, slots, list, pc);
      ExprKept(g, s2, slots, f, pc + ExprLen(list) + 1);
      FoldParts(g, slots, f, list, pc);
    }

    method AppendFoldTop(ghost b: seq<Slot>, ghost c: seq<Instruction>) returns (firstCheckPos: nat, loopDonePos: nat)
      requires Valid() && Laid(slots, b, c, 0, {}) && c == FoldCode(|b|) && |ins| == |slots| == |b|
      modifies this`ins, this`slots
      ensures Valid() && Laid(slots, b, c, 9, {1, 4}) && |ins| == |slots| == |b| + 9 && firstCheckPos == |b| + 1
              && loopDonePos == |b| + 4
    {
      hide *;
      FoldCodeStart(|b|);
      FoldCodeMiddle(|b|);
      PlainAims();
      Emit(DupeValue(1), b, c, 0, {});
      firstCheckPos := |ins|;
      Skip(b, c, 1, {}, {1});
      var top := |ins|;
      Emit(DupeValue(1), b, c, 2, {1});
      Emit(DupeValue(3), b, c, 3, {1});
      loopDonePos := |ins|;
      Skip(b, c, 4, {1}, {1, 4});
      Emit(SwapValues(1, 2), b, c, 5, {1, 4});
      Emit(CallClosure(false, 2), b, c, 6, {1, 4});
      Emit(Yield, b, c, 7, {1, 4});
      Emit(Jump(top), b, c, 8, {1, 4});
    }

    method AppendFoldLoop()
      requires Valid()
      modifies this`ins, this`slots
      ensures Valid() && Grown(old(slots), slots, 15) && Are(slots, |old(slots)|, FoldCode(|old(slots)|))
    {
      hide *;
      FoldCodeStart(|slots|);
      FoldCodeMiddle(|slots|);
      FoldCodeEnd(|slots|);
      PlainAims();
      ghost var b, c := slots, FoldCode(|slots|);
      LaidStart(slots, c);
      Sized();
      var firstCheckPos, loopDonePos := AppendFoldTop(b, c);
      var cleanInner := |ins|;
      Emit(PopValue, b, c, 9, {1, 4});
      var cleanInnerRet := |ins|;
      Skip(b, c, 10, {1, 4}, {1, 4, 10});
      var emptyList := |ins|;
      Emit(PushInt(0), b, c, 11, {1, 4, 10});
      var ret := |ins|;
      Emit(SwapValues(0, 2), b, c, 12, {1, 4, 10});
      Emit(PopValue, b, c, 13, {1, 4, 10});
      Emit(PopValue, b, c, 14, {1, 4, 10});
      Fill(firstCheckPos, ListPopFirstOrElse(emptyList), b, c, 15, {1, 4, 10}, 1, {4, 10});
      Fill(loopDonePos, ListPopFirstOrElse(cleanInner), b, c, 15, {4, 10}, 4, {10});
      Fill(cleanInnerRet, Jump(ret), b, c, 15, {10}, 10, {});
      LaidDone(slots, b, c);
    }

    // ----- statements -----

    method AppendStmts(ss: seq<Stmt>, ent: Option<nat>)
      requires Valid() && SupportedBody(Scope(fns, ent), ss)
      modifies this`ins, this`slots, this`callHoles, this`closureHoles
      ensures Valid() && Grown(old(slots), slots, StmtsLen(ss))
      ensures StmtsAt(Scope(fns, ent), slots, ss, |old(slots)|)
      ensures Debt(closureHoles) == old(Debt(closureHoles)) + LambdasBody(ss)
      decreases StmtsLen(ss), |ss| + 2
    {
      hide Recorded, StmtAt, SupportedStmt, StmtLen, LambdasStmt, Debt;
      ghost var pc, g := |slots|, Scope(fns, ent);
      for k := 0 to |ss|
        invariant Valid() && Grown(old(slots), slots, StmtsLen(ss[..k])) && StmtsAt(g, slots, ss[..k], pc)
        invariant Debt(closureHoles) == old(Debt(closureHoles)) + LambdasBody(ss[..k])
      {
        ghost var s := slots;
        StmtsSize(ss, k);
        AppendStmt(ss[k], ent);
        StmtsKept(g, s, slots, ss[..k], pc);
        StmtsSnoc(g, slots, ss[..k], ss[k], pc);
        BodySnoc(ss[..k], ss[k]);
        assert ss[..k] + [ss[k]] == ss[..k + 1];
      }
      assert ss[..|ss|] == ss;
    }

    method AppendStmt(s: Stmt, ent: Option<nat>)
      requires Valid() && SupportedStmt(Scope(fns, ent), s)
      modifies this`ins, this`slots, this`callHoles, this`closureHoles
      ensures Valid() && Grown(old(slots), slots, StmtLen(s))
      ensures StmtAt(Scope(fns, ent), slots, s, |old(slots)|)
      ensures Debt(closureHoles) == old(Debt(closureHoles)) + LambdasStmt(s)
      decreases StmtLen(s), 1
    {
      hide *;
      match s
      case Warp(body) => AppendWarp(body, ent);
      case InfLoop(body) => AppendInfLoop(body, ent);
      case UntilLoop(cond, body) => AppendUntilLoop(cond, body, ent);
      case Repeat(times, body) => AppendRepeat(times, body, ent);
      case ForLoop(v, start, stop, body) => AppendForLoop(v, start, stop, body, ent);
      case ForeachLoop(v, items, body) => AppendForeachLoop(v, items, body, ent);
      case If(cond, then_) => AppendIf(cond, then_, ent);
      case IfElse(cond, then_, else_) => AppendIfElse(cond, then_, else_, ent);
      case TryCatch(body, name, handler) => AppendTryCatch(body, name, handler, ent);
      case RunFn(name, args, upvars) => AppendRunFn(name, args, upvars, ent);
      case RunValue(f, args) => AppendRunValue(f, args, ent);
      case _ => AppendPlain(s, ent);
    }

    method AppendPlain(s: Stmt, ent: Option<nat>)
      requires Valid() && SupportedStmt(Scope(fns, ent), s)
               && (s.SetVar? || s.ChangeVar? || s.DeclareLocals? || s.Do? || s.ReturnValue?)
      modifies this`ins, this`slots, this`callHoles, this`closureHoles
      ensures Valid() && Grown(old(slots), slots, StmtLen(s))
      ensures StmtAt(Scope(fns, ent), slots, s, |old(slots)|)
      ensures Debt(closureHoles) == old(Debt(closureHoles)) + LambdasStmt(s)
      decreases StmtLen(s), 0
    {
      hide Recorded, ExprAt, ExprsAt, ExprLen, ExprsLen, StmtsAt, ForAt, SupportedAll, SupportedExpr, LambdasAll;
      hide LambdasExpr, Debt, Aims, DeclaresAt;
      PlainAims();
      ghost var pc, g := |slots|, Scope(fns, ent);
      if s.DeclareLocals? {
        PushDeclares(s.names);
      } else if s.Do? {
        AppendExprs(s.args, ent);
        ghost var t := slots;
        LowerDoAims(s.op, |slots| + 1);
        Push(LowerDo(s.op));
        ExprsKept(g, t, slots, s.args, pc);
      } else {
        AppendExpr(s.value, ent);
        ghost var t := slots;
        if s.SetVar? {
          Push(Assign(s.name));
        } else if s.ChangeVar? {
          Push(BinaryOpAssign(s.name, Add));
        } else {
          Push(Return);
        }
        ExprKept(g, t, slots, s.value, pc);
      }
    }

    method AppendRunFn(name: Str, args: seq<Expr>, upvars: seq<Str>, ent: Option<nat>)
      requires Valid() && SupportedStmt(Scope(fns, ent), RunFn(name, args, upvars))
      modifies this`ins, this`slots, this`callHoles, this`closureHoles
      ensures Valid() && Grown(old(slots), slots, StmtLen(RunFn(name, args, upvars)))
      ensures StmtAt(Scope(fns, ent), slots, RunFn(name, args, upvars), |old(slots)|)
      ensures Debt(closureHoles) == old(Debt(closureHoles)) + LambdasStmt(RunFn(name, args, upvars))
      decreases StmtLen(RunFn(name, args, upvars)), 0
    {
      hide Recorded, ExprAt, ExprsAt, ExprLen, ExprsLen, StmtsAt, ForAt, SupportedAll, SupportedExpr, LambdasAll;
      hide LambdasExpr, Debt, Aims, DeclaresAt, NulFree;
      PlainAims();
      ghost var pc, g := |slots|, Scope(fns, ent);
      PushDeclares(upvars);
      ghost var s1 := slots;
      AppendExprs(args, ent);
      ghost var s2 := slots;
      PushCall(name, ent);
      Push(PopValue);
      DeclaresKept(s1, slots, upvars, pc);
      ExprsKept(g, s2, slots, args, pc + |upvars|);
    }

    method AppendRunValue(f: Expr, args: seq<Expr>, ent: Option<nat>)
      requires Valid() && SupportedStmt(Scope(fns, ent), RunValue(f, args))
      modifies this`ins, this`slots, this`callHoles, this`closureHoles
      ensures Valid() && Grown(old(slots), slots, StmtLen(RunValue(f, args)))
      ensures StmtAt(Scope(fns, ent), slots, RunValue(f, args), |old(slots)|)
      ensures Debt(closureHoles) == old(Debt(closureHoles)) + LambdasStmt(RunValue(f, args))
      decreases StmtLen(RunValue(f, args)), 0
    {
      hide Recorded, ExprAt, ExprsAt, ExprLen, ExprsLen, StmtsAt, ForAt, SupportedAll, SupportedExpr, LambdasAll;
      hide LambdasExpr, Debt, Aims, DeclaresAt, NulFree;
      PlainAims();
      ghost var pc, g := |slots|, Scope(fns, ent);
      AppendExpr(f, ent);
      ghost var s1 := slots;
      AppendExprs(args, ent);
      ghost var s2 := slots;
      Push(CallClosure(false, |args|));
      Push(PopValue);
      ExprKept(g, s1, slots, f, pc);
      ExprsKept(g, s2, slots, args, pc + ExprLen(f));
    }

    method AppendWarp(body: seq<Stmt>, ent: Option<nat>)
      requires Valid() && SupportedStmt(Scope(fns, ent), Warp(body))
      modifies this`ins, this`slots, this`callHoles, this`closureHoles
      ensures Valid() && Grown(old(slots), slots, StmtLen(Warp(body)))
      ensures StmtAt(Scope(fns, ent), slots, Warp(body), |old(slots)|)
      ensures Debt(closureHoles) == old(Debt(closureHoles)) + LambdasStmt(Warp(body))
      decreases StmtLen(Warp(body)), 0
    {
      hide *;
      PlainAims();
      BodyOk(Scope(fns, ent), body);
      ghost var s0, g := slots, Scope(fns, ent);
      Push(WarpStart);
      AppendStmts(body, ent);
      WarpBuilt(g, s0, slots, body);
      Push(WarpStop);
    }

    method AppendInfLoop(body: seq<Stmt>, ent: Option<nat>)
      requires Valid() && SupportedStmt(Scope(fns, ent), InfLoop(body))
      modifies this`ins, this`slots, this`callHoles, this`closureHoles
      ensures Valid() && Grown(old(slots), slots, StmtLen(InfLoop(body)))
      ensures StmtAt(Scope(fns, ent), slots, InfLoop(body), |old(slots)|)
      ensures Debt(closureHoles) == old(Debt(closureHoles)) + LambdasStmt(InfLoop(body))
      decreases StmtLen(InfLoop(body)), 0
    {
      hide *;
      PlainAims();
      BodyOk(Scope(fns, ent), body);
      Sized();
      ghost var s0, g := slots, Scope(fns, ent);
      var top := |ins|;
      AppendStmts(body, ent);
      ghost var s1 := slots;
      InfLoopBuilt(g, s0, s1, body);
      Push(Yield);
      Push(Jump(top));
      assert slots == s1 + [Ins(Yield), Ins(Jump(top))];
    }

    method AppendUntilLoop(cond: Expr, body: seq<Stmt>, ent: Option<nat>)
      requires Valid() && SupportedStmt(Scope(fns, ent), UntilLoop(cond, body))
      modifies this`ins, this`slots, this`callHoles, this`closureHoles
      ensures Valid() && Grown(old(slots), slots, StmtLen(UntilLoop(cond, body)))
      ensures StmtAt(Scope(fns, ent), slots, UntilLoop(cond, body), |old(slots)|)
      ensures Debt(closureHoles) == old(Debt(closureHoles)) + LambdasStmt(UntilLoop(cond, body))
      decreases StmtLen(UntilLoop(cond, body)), 0
    {
      hide *;
      PlainAims();
      UntilOk(Scope(fns, ent), cond, body);
      Sized();
      ghost var s0, g := slots, Scope(fns, ent);
      var top := |ins|;
      AppendExpr(cond, ent);
      ghost var s1 := slots;
      Sized();
      var exitJumpPos := |ins|;
      Hole();
      AppendStmts(body, ent);
      ghost var s2 := slots;
      ghost var tail := [Ins(Yield), Ins(Jump(top))];
      GrownSize(s0, s1, ExprLen(cond));
      StillOpen(s1 + [Pending], s2, StmtsLen(body), exitJumpPos);
      Push(Yield);
      Push(Jump(top));
      var aft := |ins|;
      assert slots == s2 + tail;
      Patch(exitJumpPos, ConditionalJump(aft, true));
      UntilBuilt(g, s0, s1, s2, slots, tail, cond, body);
    }

    /** Counts the value on the stack down, and goes around. */
    method PushCountdown(top: nat)
      requires Valid() && top < |slots|
      modifies this`ins, this`slots
      ensures Valid() && slots == old(slots) + [Ins(PushInt(1)), Ins(Binary(Sub)), Ins(Yield), Ins(Jump(top))]
              && |ins| == |slots|
    {
      hide *;
      PlainAims();
      ghost var s := slots;
      Push(PushInt(1));
      Push(Binary(Sub));
      Push(Yield);
      Push(Jump(top));
      AppendFour(s, Ins(PushInt(1)), Ins(Binary(Sub)), Ins(Yield), Ins(Jump(top)));
    }

    method AppendRepeat(times: Expr, body: seq<Stmt>, ent: Option<nat>)
      requires Valid() && SupportedStmt(Scope(fns, ent), Repeat(times, body))
      modifies this`ins, this`slots, this`callHoles, this`closureHoles
      ensures Valid() && Grown(old(slots), slots, StmtLen(Repeat(times, body)))
      ensures StmtAt(Scope(fns, ent), slots, Repeat(times, body), |old(slots)|)
      ensures Debt(closureHoles) == old(Debt(closureHoles)) + LambdasStmt(Repeat(times, body))
      decreases StmtLen(Repeat(times, body)), 0
    {
      hide *;
      PlainAims();
      RepeatOk(Scope(fns, ent), times, body);
      ghost var s0, g := slots, Scope(fns, ent);
      AppendExpr(times, ent);
      ghost var s1 := slots;
      Sized();
      var top := |ins|;
      Push(DupeValue(0));
      Push(PushInt(0));
      Push(Cmp(Greater));
      var aftJumpPos := |ins|;
      Hole();
      ghost var head := [Ins(DupeValue(0)), Ins(PushInt(0)), Ins(Cmp(Greater)), Pending];
      AppendFour(s1, head[0], head[1], head[2], head[3]);
      AppendStmts(body, ent);
      ghost var s2 := slots;
      StillOpen(s1 + head, s2, StmtsLen(body), aftJumpPos);
      PushCountdown(top);
      var aft := |ins|;
      ghost var tail := [Ins(PushInt(1)), Ins(Binary(Sub)), Ins(Yield), Ins(Jump(top))];
      Patch(aftJumpPos, ConditionalJump(aft, false));
      Push(PopValue);
      RepeatBuilt(g, s0, s1, s2, slots, head, tail, times, body);
    }

    method AppendForLoop(v: Var, start: Expr, stop: Expr, body: seq<Stmt>, ent: Option<nat>)
      requires Valid() && SupportedStmt(Scope(fns, ent), ForLoop(v, start, stop, body))
      modifies this`ins, this`slots, this`callHoles, this`closureHoles
      ensures Valid() && Grown(old(slots), slots, StmtLen(ForLoop(v, start, stop, body)))
      ensures StmtAt(Scope(fns, ent), slots, ForLoop(v, start, stop, body), |old(slots)|)
      ensures Debt(closureHoles) == old(Debt(closureHoles)) + LambdasStmt(ForLoop(v, start, stop, body))
      decreases StmtLen(ForLoop(v, start, stop, body)), 0
    {
      hide *;
      ForOk(Scope(fns, ent), v, start, stop, body);
      ghost var s0, g := slots, Scope(fns, ent);
      AppendRange(v, start, stop, ent);
      ghost var s1 := slots;
      AppendRounds(v.trans, body, ent);
      ForBuilt(g, s0, s1, slots, v, start, stop, body);
    }

    /** The bounds of a counting loop. */
    method AppendRange(v: Var, start: Expr, stop: Expr, ent: Option<nat>)
      requires Valid() && SupportedExpr(Scope(fns, ent), start) && SupportedExpr(Scope(fns, ent), stop)
      modifies this`ins, this`slots, this`callHoles, this`closureHoles
      ensures Valid() && Grown(old(slots), slots, ExprLen(start) + ExprLen(stop) + 15)
      ensures RangeAt(Scope(fns, ent), slots, v, start, stop, |old(slots)|)
      ensures Debt(closureHoles) == old(Debt(closureHoles)) + LambdasExpr(start) + LambdasExpr(stop)
      decreases ExprLen(start) + ExprLen(stop), 2
    {
      hide *;
      PlainAims();
      ghost var s0, g := slots, Scope(fns, ent);
      Push(DeclareLocal(v.name));
      AppendExpr(start, ent);
      ghost var s1 := slots;
      Push(ToNum);
      AppendExpr(stop, ent);
      ghost var s2 := slots;
      Push(ToNum);
      AppendForPrelude();
      RangeBuilt(g, s0, s1, s2, slots, v, start, stop);
    }

    /** The rounds of a counting loop. */
    method AppendRounds(trans: Str, body: seq<Stmt>, ent: Option<nat>)
      requires Valid() && SupportedBody(Scope(fns, ent), body)
      modifies this`ins, this`slots, this`callHoles, this`closureHoles
      ensures Valid() && Grown(old(slots), slots, StmtsLen(body) + 18)
      ensures RoundsAt(Scope(fns, ent), slots, trans, body, |old(slots)|)
      ensures Debt(closureHoles) == old(Debt(closureHoles)) + LambdasBody(body)
      decreases StmtsLen(body), |body| + 3
    {
      hide *;
      PlainAims();
      ghost var s0, g := slots, Scope(fns, ent);
      Sized();
      var top := |ins|;
      var exitJumpPos := AppendForTest(trans);
      ghost var head := HeadSlots(trans);
      AppendStmts(body, ent);
      ghost var s1 := slots;
      Sized();
      HeadSize(s0, trans);
      GrownSize(s0 + head, s1, StmtsLen(body));
      StillOpen(s0 + head, s1, StmtsLen(body), exitJumpPos);
      StepsWhole(top);
      AppendForStep(top);
      var aft := |ins|;
      Patch(exitJumpPos, ConditionalJump(aft, true));
      ghost var s2 := slots;
      Push(PopValue);
      Push(PopValue);
      Push(PopValue);
      AppendThree(s2, Ins(PopValue), Ins(PopValue), Ins(PopValue));
      RoundsBuilt(g, s0, s1, slots, trans, body);
    }

    /** The start of a round: leave if nothing remains, otherwise set the variable. */
    method AppendForTest(trans: Str) returns (exitJumpPos: nat)
      requires Valid()
      modifies this`ins, this`slots
      ensures Valid() && slots == old(slots) + HeadSlots(trans) && exitJumpPos == old(|slots|) + 3
    {
      hide *;
      PlainAims();
      ghost var s := slots;
      Push(DupeValue(0));
      Push(PushInt(0));
      Push(Cmp(Less));
      exitJumpPos := |ins|;
      Hole();
      Push(DupeValue(1));
      Push(Assign(trans));
      AppendSix(s, Ins(DupeValue(0)), Ins(PushInt(0)), Ins(Cmp(Less)), Pending, Ins(DupeValue(1)), Ins(Assign(trans)));
      HeadSize(s, trans);
    }

    /** Chooses the step and works out the distance. */
    method AppendForPrelude()
      requires Valid()
      modifies this`ins, this`slots
      ensures Valid() && Grown(old(slots), slots, 12) && Are(slots, |old(slots)|, ForPrelude(|old(slots)|))
    {
      hide *;
      ForPreludeStart(|slots|);
      ForPreludeMiddle(|slots|);
      ForPreludeEnd(|slots|);
      PlainAims();
      ghost var b, c := slots, ForPrelude(|slots|);
      LaidStart(slots, c);
      Emit(DupeValue(1), b, c, 0, {});
      Emit(DupeValue(1), b, c, 1, {});
      Emit(Cmp(Greater), b, c, 2, {});
      var deltaJumpPos := |ins|;
      Skip(b, c, 3, {}, {3});
      Emit(PushInt(1), b, c, 4, {3});
      var positiveDeltaEnd := |ins|;
      Skip(b, c, 5, {3}, {3, 5});
      var negativeDeltaPos := |ins|;
      Emit(PushInt(-1), b, c, 6, {3, 5});
      var aftDelta := |ins|;
      Fill(deltaJumpPos, ConditionalJump(negativeDeltaPos, true), b, c, 7, {3, 5}, 3, {5});
      Fill(positiveDeltaEnd, Jump(aftDelta), b, c, 7, {5}, 5, {});
      Emit(SwapValues(0, 2), b, c, 7, {});
      Emit(SwapValues(0, 1), b, c, 8, {});
      Emit(DupeValue(1), b, c, 9, {});
      Emit(Binary(Sub), b, c, 10, {});
      Emit(Unary(Abs), b, c, 11, {});
      LaidDone(slots, b, c);
    }

    /** The end of a round: one less to go, and on to the next value. */
    method AppendForStep(top: nat)
      requires Valid() && top <= |slots|
      modifies this`ins, this`slots
      ensures Valid() && |ins| == |slots| && slots == old(slots) + StepSlots(top)
    {
      hide *;
      PlainAims();
      ghost var s := slots;
      Push(PushInt(1));
      Push(Binary(Sub));
      Push(DupeValue(1));
      Push(DupeValue(3));
      Push(Binary(Add));
      Push(SwapValues(0, 2));
      Push(PopValue);
      Push(Yield);
      Push(Jump(top));
      StepIs(s, top);
    }

    /** Copies the list on the stack, and assigns its items to a variable, one each time around. */
    method PushNextItem(name: Str)
      requires Valid()
      modifies this`ins, this`slots
      ensures Valid() && |ins| == |slots|
      ensures slots == old(slots) + [Ins(Variadic(MakeList, Dynamic)), Ins(DupeValue(0)), Pending, Ins(Assign(name))]
    {
      hide *;
      PlainAims();
      ghost var s := slots;
      Push(Variadic(MakeList, Dynamic)); // shallow copy the input list
      Push(DupeValue(0));
      Hole();
      Push(Assign(name));
      AppendFour(s, Ins(Variadic(MakeList, Dynamic)), Ins(DupeValue(0)), Pending, Ins(Assign(name)));
    }

    method AppendForeachLoop(v: Var, items: Expr, body: seq<Stmt>, ent: Option<nat>)
      requires Valid() && SupportedStmt(Scope(fns, ent), ForeachLoop(v, items, body))
      modifies this`ins, this`slots, this`callHoles, this`closureHoles
      ensures Valid() && Grown(old(slots), slots, StmtLen(ForeachLoop(v, items, body)))
      ensures StmtAt(Scope(fns, ent), slots, ForeachLoop(v, items, body), |old(slots)|)
      ensures Debt(closureHoles) == old(Debt(closureHoles)) + LambdasStmt(ForeachLoop(v, items, body))
      decreases StmtLen(ForeachLoop(v, items, body)), 0
    {
      hide *;
      PlainAims();
      ForeachOk(Scope(fns, ent), v, items, body);
      ghost var s0, g := slots, Scope(fns, ent);
      Push(DeclareLocal(v.name));
      AppendExpr(items, ent);
      ghost var s1 := slots;
      Sized();
      PushNextItem(v.trans);
      var top, exitJumpPos := |ins| - 3, |ins| - 2;
      ghost var head := [Ins(Variadic(MakeList, Dynamic)), Ins(DupeValue(0)), Pending, Ins(Assign(v.trans))];
      AppendStmts(body, ent);
      ghost var s2 := slots;
      StillOpen(s1 + head, s2, StmtsLen(body), exitJumpPos);
      Push(Yield);
      Push(Jump(top));
      var aft := |ins|;
      ghost var tail := [Ins(Yield), Ins(Jump(top))];
      assert slots == s2 + tail;
      Patch(exitJumpPos, ListPopFirstOrElse(aft));
      Push(PopValue);
      ForeachBuilt(g, s0, s1, s2, slots, head, tail, v, items, body);
    }

    method AppendIf(cond: Expr, then_: seq<Stmt>, ent: Option<nat>)
      requires Valid() && SupportedStmt(Scope(fns, ent), If(cond, then_))
      modifies this`ins, this`slots, this`callHoles, this`closureHoles
      ensures Valid() && Grown(old(slots), slots, StmtLen(If(cond, then_)))
      ensures StmtAt(Scope(fns, ent), slots, If(cond, then_), |old(slots)|)
      ensures Debt(closureHoles) == old(Debt(closureHoles)) + LambdasStmt(If(cond, then_))
      decreases StmtLen(If(cond, then_)), 0
    {
      hide *;
      PlainAims();
      IfOk(Scope(fns, ent), cond, then_);
      ghost var s0, g := slots, Scope(fns, ent);
      AppendExpr(cond, ent);
      ghost var s1 := slots;
      Sized();
      var patchPos := |ins|;
      Hole();
      AppendStmts(then_, ent);
      ghost var s2 := slots;
      Sized();
      var elsePos := |ins|;
      StillOpen(s1 + [Pending], s2, StmtsLen(then_), patchPos);
      Patch(patchPos, ConditionalJump(elsePos, false));
      IfBuilt(g, s0, s1, s2, slots, cond, then_);
    }

    method AppendIfElse(cond: Expr, then_: seq<Stmt>, else_: seq<Stmt>, ent: Option<nat>)
      requires Valid() && SupportedStmt(Scope(fns, ent), IfElse(cond, then_, else_))
      modifies this`ins, this`slots, this`callHoles, this`closureHoles
      ensures Valid() && Grown(old(slots), slots, StmtLen(IfElse(cond, then_, else_)))
      ensures StmtAt(Scope(fns, ent), slots, IfElse(cond, then_, else_), |old(slots)|)
      ensures Debt(closureHoles) == old(Debt(closureHoles)) + LambdasStmt(IfElse(cond, then_, else_))
      decreases StmtLen(IfElse(cond, then_, else_)), 0
    {
      hide *;
      PlainAims();
      IfElseOk(Scope(fns, ent), cond, then_, else_);
      ghost var s0, g := slots, Scope(fns, ent);
      AppendExpr(cond, ent);
      ghost var s1 := slots;
      Sized();
      var checkPos := |ins|;
      Hole();
      AppendStmts(then_, ent);
      ghost var s2 := slots;
      Sized();
      var jumpPos := |ins|;
      Hole();
      var elsePos := |ins|;
      AppendStmts(else_, ent);
      ghost var s3 := slots;
      Sized();
      var aft := |ins|;
      StillOpen(s1 + [Pending], s2, StmtsLen(then_), checkPos);
      StillOpen(s2 + [Pending], s3, StmtsLen(else_), checkPos);
      StillOpen(s2 + [Pending], s3, StmtsLen(else_), jumpPos);
      Patch(checkPos, ConditionalJump(elsePos, false));
      Patch(jumpPos, Jump(aft));
      IfElseBuilt(g, s0, s1, s2, s3, slots, cond, then_, else_);
    }

    /** The way out of a guarded body, and the start of its handler. */
    method PushRescue()
      requires Valid()
      modifies this`ins, this`slots
      ensures Valid() && slots == old(slots) + [Ins(PopHandler), Pending, Ins(PopHandler)] && |ins| == |slots|
    {
      hide *;
      PlainAims();
      ghost var s := slots;
      Push(PopHandler);
      Hole();
      Push(PopHandler);
      AppendThree(s, Ins(PopHandler), Pending, Ins(PopHandler));
    }

    method AppendTryCatch(body: seq<Stmt>, name: Str, handler: seq<Stmt>, ent: Option<nat>)
      requires Valid() && SupportedStmt(Scope(fns, ent), TryCatch(body, name, handler))
      modifies this`ins, this`slots, this`callHoles, this`closureHoles
      ensures Valid() && Grown(old(slots), slots, StmtLen(TryCatch(body, name, handler)))
      ensures StmtAt(Scope(fns, ent), slots, TryCatch(body, name, handler), |old(slots)|)
      ensures Debt(closureHoles) == old(Debt(closureHoles)) + LambdasStmt(TryCatch(body, name, handler))
      decreases StmtLen(TryCatch(body, name, handler)), 0
    {
      hide *;
      PlainAims();
      TryOk(Scope(fns, ent), body, name, handler);
      Sized();
      ghost var s0, g := slots, Scope(fns, ent);
      var pushPos := |ins|;
      Hole();
      AppendStmts(body, ent);
      ghost var s1 := slots;
      Sized();
      PushRescue();
      var successEndPos, errorHandlerPos := |ins| - 2, |ins| - 1;
      ghost var rescue := [Ins(PopHandler), Pending, Ins(PopHandler)];
      AppendStmts(handler, ent);
      ghost var s2 := slots;
      Sized();
      var aft := |ins|;
      GrownSize(s0 + [Pending], s1, StmtsLen(body));
      StillOpen(s0 + [Pending], s1, StmtsLen(body), pushPos);
      GrownSize(s1 + rescue, s2, StmtsLen(handler));
      StillOpen(s1 + rescue, s2, StmtsLen(handler), pushPos);
      StillOpen(s1 + rescue, s2, StmtsLen(handler), successEndPos);
      Patch(pushPos, PushHandler(errorHandlerPos, name));
      Patch(successEndPos, Jump(aft));
      TryBuilt(g, s0, s1, s2, slots, rescue, body, name, handler);
    }

    // ----- bodies -----

    /** A body: link its upvars, run its statements, and report an empty text if it falls off the end. */
    method AppendStmtsRet(upvars: seq<Str>, stmts: seq<Stmt>, ent: Option<nat>)
      requires Valid() && SupportedBody(Scope(fns, ent), stmts) && Aimed(slots, |slots|)
      modifies this`ins, this`slots, this`callHoles, this`closureHoles
      ensures Valid() && Grown(old(slots), slots, BodyLen(upvars, stmts)) && Aimed(slots, |slots|)
      ensures BodyAt(Scope(fns, ent), slots, upvars, stmts, |old(slots)|)
      ensures Debt(closureHoles) == old(Debt(closureHoles)) + LambdasBody(stmts)
    {
      hide *;
      PlainAims();
      ghost var s0, g := slots, Scope(fns, ent);
      PushUpvars(upvars);
      ghost var s1 := slots;
      AppendStmts(stmts, ent);
      ghost var s2 := slots;
      AimedBelow();
      Push(PushString([]));
      Push(Return);
      RetBuilt(g, s0, s1, s2, slots, upvars, stmts);
    }

    lemma AimedBelow()
      requires Valid()
      ensures Aimed(slots, |slots| + 1)
    {
      hide LosslessJoin, SupportedBody;
    }

    method PushUpvars(names: seq<Str>)
      requires Valid()
      modifies this`ins, this`slots
      ensures Valid() && Grown(old(slots), slots, |names|)
      ensures forall i :: 0 <= i < |names| ==> slots[|old(slots)| + i] == Ins(InitUpvar(names[i]))
    {
      hide Recorded;
      ghost var pc := |slots|;
      for k := 0 to |names|
        invariant Valid() && Grown(old(slots), slots, k) && forall i :: 0 <= i < k ==>
                    slots[pc + i] == Ins(InitUpvar(names[i]))
      {
        Push(InitUpvar(names[k]));
      }
    }

    /** Takes the next closure and points it at the code about to be appended. */
    method LinkClosure() returns (c: ClosureRef)
      requires Valid() && closureHoles != []
      modifies this`ins, this`closureHoles, this`bodies
      ensures Valid() && c == old(closureHoles)[0]
              && Debt(closureHoles) + 1 + LambdasBody(c.body) == old(Debt(closureHoles))
      ensures c.pos < |slots| && c.pos !in old(bodies)
              && slots[c.pos] == ClosureHole(c.params, c.captures, c.body, c.ent)
      ensures bodies == old(bodies)[c.pos := |slots|] && SupportedBody(Scope(fns, c.ent), c.body)
    {
      hide Aims, LambdasStmt, SupportedStmt;
      LinkKeeps(fns, ins, slots, bodies, callHoles, closureHoles, |ins|);
      c := closureHoles[0];
      closureHoles := closureHoles[1..];
      bodies := bodies[c.pos := |ins|];
      ins := ins[c.pos := Real(MakeClosure(|ins|, |c.params|, LosslessJoin(c.params + c.captures)))];
    }
  }

  /** A stretch of known slots, more code, and two more slots. */
  lemma RetSlots(s0: seq<Slot>, s1: seq<Slot>, s2: seq<Slot>, t: seq<Slot>, m: nat, n: nat, x: Slot, y: Slot)
    requires Grown(s0, s1, m) && Grown(s1, s2, n) && t == s2 + [x] + [y] && !x.Pending? && !y.Pending?
    ensures |s1| == |s0| + m && |s2| == |s1| + n && |t| == |s2| + 2 && t[|s2|] == x && t[|s2| + 1] == y
    ensures Grown(s0, t, m + n + 2) && Agree(s1, t, |s0|, m) && Agree(s2, t, |s1|, n)
  {
    forall p | 0 <= p < |s1| ensures t[p] == s1[p] {
      assert s2[p] == s1[p];
    }
  }

  lemma BodyBuilt(g: Scope, t: seq<Slot>, upvars: seq<Str>, stmts: seq<Stmt>, pc: nat)
    requires var a := pc + |upvars|;
             && a <= |t| && (forall i :: 0 <= i < |upvars| ==> t[pc + i] == Ins(InitUpvar(upvars[i])))
             && StmtsAt(g, t, stmts, a) && Are(t, a + StmtsLen(stmts), [PushString([]), Return])
    ensures BodyAt(g, t, upvars, stmts, pc) && BodyLen(upvars, stmts) == |upvars| + StmtsLen(stmts) + 2
  {
    hide StmtsAt, StmtsLen, Are;
  }

  lemma UpvarsKept(s1: seq<Slot>, t: seq<Slot>, upvars: seq<Str>, pc: nat)
    requires Agree(s1, t, pc, |upvars|) && pc + |upvars| <= |s1| && forall i :: 0 <= i < |upvars| ==>
               s1[pc + i] == Ins(InitUpvar(upvars[i]))
    ensures pc + |upvars| <= |t| && forall i :: 0 <= i < |upvars| ==> t[pc + i] == Ins(InitUpvar(upvars[i]))
  {
    forall i | 0 <= i < |upvars| ensures t[pc + i] == Ins(InitUpvar(upvars[i])) {
      assert s1[pc + i] == t[pc + i];
    }
  }

  lemma RetBuilt(g: Scope, s0: seq<Slot>, s1: seq<Slot>, s2: seq<Slot>, t: seq<Slot>, upvars: seq<Str>,
                 stmts: seq<Stmt>)
    requires Grown(s0, s1, |upvars|) && forall i :: 0 <= i < |upvars| ==> s1[|s0| + i] == Ins(InitUpvar(upvars[i]))
    requires Grown(s1, s2, StmtsLen(stmts)) && StmtsAt(g, s2, stmts, |s1|) && Aimed(s2, |s2| + 1)
    requires t == s2 + [Ins(PushString([]))] + [Ins(Return)]
    ensures Grown(s0, t, BodyLen(upvars, stmts)) && BodyAt(g, t, upvars, stmts, |s0|) && Aimed(t, |t|)
  {
    hide *;
    RetSlots(s0, s1, s2, t, |upvars|, StmtsLen(stmts), Ins(PushString([])), Ins(Return));
    RetAimed(s2, t);
    UpvarsKept(s1, t, upvars, |s0|);
    StmtsKept(g, s2, t, stmts, |s1|);
    EndIs(t, |s2|);
    BodyBuilt(g, t, upvars, stmts, |s0|);
  }

  lemma RetAimed(s: seq<Slot>, t: seq<Slot>)
    requires Aimed(s, |s| + 1) && t == s + [Ins(PushString([]))] + [Ins(Return)]
    ensures Aimed(t, |t|)
  {
    hide Aims;
    PlainAims();
    forall p | 0 <= p < |t| && t[p].Ins? ensures Aims(t[p].ins, |t|) {
      if p < |s| {
        assert Aims(s[p].ins, |s| + 1);
        AimsWider(s[p].ins, |s| + 1, |t|);
      }
    }
  }

  lemma EndIs(code: seq<Slot>, a: nat)
    requires a + 2 <= |code| && code[a] == Ins(PushString([])) && code[a + 1] == Ins(Return)
    ensures Are(code, a, [PushString([]), Return])
  {
  }

  lemma {:induction false} ExprsSize(es: seq<Expr>, k: nat)
    requires k < |es|
    ensures ExprLen(es[k]) <= ExprsLen(es)
    decreases |es|
  {
    hide ExprLen;
    if k > 0 {
      ExprsSize(es[1..], k - 1);
    }
  }

  lemma {:induction false} StmtsSize(ss: seq<Stmt>, k: nat)
    requires k < |ss|
    ensures StmtLen(ss[k]) <= StmtsLen(ss)
    decreases |ss|
  {
    hide StmtLen;
    if k > 0 {
      StmtsSize(ss[1..], k - 1);
    }
  }

  lemma LowerDoAims(op: SimpleDo, n: nat)
    ensures Aims(LowerDo(op), n)
  {
  }

  // ----- what statements need of their parts -----

  lemma BodyOk(g: Scope, body: seq<Stmt>)
    ensures SupportedStmt(g, Warp(body)) == SupportedStmt(g, InfLoop(body)) == SupportedBody(g, body)
    ensures LambdasStmt(Warp(body)) == LambdasStmt(InfLoop(body)) == LambdasBody(body)
    ensures StmtLen(Warp(body)) == StmtLen(InfLoop(body)) == StmtsLen(body) + 2
  {
    hide Arity, Callable, ExprLen, ExprsLen, LambdasExpr, LowerDo, SupportedAll, SupportedExpr;
  }

  lemma UntilOk(g: Scope, cond: Expr, body: seq<Stmt>)
    ensures SupportedStmt(g, UntilLoop(cond, body)) <==> SupportedExpr(g, cond) && SupportedBody(g, body)
    ensures LambdasStmt(UntilLoop(cond, body)) == LambdasExpr(cond) + LambdasBody(body)
    ensures StmtLen(UntilLoop(cond, body)) == ExprLen(cond) + StmtsLen(body) + 3
  {
    hide Arity, Callable, ExprsLen, LitLen, LitsLen, Lower, LowerDo, NulFree, SupportedAll;
  }

  lemma RepeatOk(g: Scope, times: Expr, body: seq<Stmt>)
    ensures SupportedStmt(g, Repeat(times, body)) <==> SupportedExpr(g, times) && SupportedBody(g, body)
    ensures LambdasStmt(Repeat(times, body)) == LambdasExpr(times) + LambdasBody(body)
    ensures StmtLen(Repeat(times, body)) == ExprLen(times) + StmtsLen(body) + 9
  {
    hide Arity, Callable, ExprsLen, LitLen, LitsLen, Lower, LowerDo, NulFree, SupportedAll;
  }

  lemma ForOk(g: Scope, v: Var, start: Expr, stop: Expr, body: seq<Stmt>)
    ensures SupportedStmt(g, ForLoop(v, start, stop, body)) <==>
              SupportedExpr(g, start) && SupportedExpr(g, stop) && SupportedBody(g, body)
    ensures LambdasStmt(ForLoop(v, start, stop, body)) == LambdasExpr(start) + LambdasExpr(stop) + LambdasBody(body)
    ensures StmtLen(ForLoop(v, start, stop, body)) == ExprLen(start) + ExprLen(stop) + StmtsLen(body) + 33
  {
    hide Arity, Callable, ExprsLen, LitLen, LitsLen, Lower, LowerDo, NulFree, SupportedAll;
  }

  lemma ForeachOk(g: Scope, v: Var, items: Expr, body: seq<Stmt>)
    ensures SupportedStmt(g, ForeachLoop(v, items, body)) <==> SupportedExpr(g, items) && SupportedBody(g, body)
    ensures LambdasStmt(ForeachLoop(v, items, body)) == LambdasExpr(items) + LambdasBody(body)
    ensures StmtLen(ForeachLoop(v, items, body)) == ExprLen(items) + StmtsLen(body) + 8
  {
    hide Arity, Callable, ExprsLen, LitLen, LitsLen, Lower, LowerDo, NulFree, SupportedAll;
  }

  lemma IfOk(g: Scope, cond: Expr, then_: seq<Stmt>)
    ensures SupportedStmt(g, If(cond, then_)) <==> SupportedExpr(g, cond) && SupportedBody(g, then_)
    ensures LambdasStmt(If(cond, then_)) == LambdasExpr(cond) + LambdasBody(then_)
    ensures StmtLen(If(cond, then_)) == ExprLen(cond) + StmtsLen(then_) + 1
  {
    hide Arity, Callable, ExprsLen, LitLen, LitsLen, Lower, LowerDo, NulFree, SupportedAll;
  }

  lemma IfElseOk(g: Scope, cond: Expr, then_: seq<Stmt>, else_: seq<Stmt>)
    ensures SupportedStmt(g, IfElse(cond, then_, else_)) <==>
              SupportedExpr(g, cond) && SupportedBody(g, then_) && SupportedBody(g, else_)
    ensures LambdasStmt(IfElse(cond, then_, else_)) == LambdasExpr(cond) + LambdasBody(then_) + LambdasBody(else_)
    ensures StmtLen(IfElse(cond, then_, else_)) == ExprLen(cond) + StmtsLen(then_) + StmtsLen(else_) + 2
  {
    hide Arity, Callable, ExprsLen, LitLen, LitsLen, Lower, LowerDo, NulFree, SupportedAll;
  }

  lemma TryOk(g: Scope, body: seq<Stmt>, name: Str, handler: seq<Stmt>)
    ensures SupportedStmt(g, TryCatch(body, name, handler)) <==> SupportedBody(g, body) && SupportedBody(g, handler)
    ensures LambdasStmt(TryCatch(body, name, handler)) == LambdasBody(body) + LambdasBody(handler)
    ensures StmtLen(TryCatch(body, name, handler)) == StmtsLen(body) + StmtsLen(handler) + 4
  {
    hide Arity, Callable, ExprLen, ExprsLen, LambdasExpr, LowerDo, SupportedAll, SupportedExpr;
  }

  // ----- what the patched code of a statement amounts to -----

  lemma WarpBuilt(g: Scope, s0: seq<Slot>, s1: seq<Slot>, body: seq<Stmt>)
    requires Grown(s0 + [Ins(WarpStart)], s1, StmtsLen(body)) && StmtsAt(g, s1, body, |s0| + 1)
    ensures var t := s1 + [Ins(WarpStop)]; Grown(s0, t, StmtLen(Warp(body))) && StmtAt(g, t, Warp(body), |s0|)
  {
    hide StmtsAt, StmtsLen, ForAt, ExprAt;
    var m, t := s0 + [Ins(WarpStart)], s1 + [Ins(WarpStop)];
    assert s1[|s0|] == m[|s0|];
    StmtsKept(g, s1, t, body, |s0| + 1);
  }

  lemma InfLoopBuilt(g: Scope, s0: seq<Slot>, s1: seq<Slot>, body: seq<Stmt>)
    requires Grown(s0, s1, StmtsLen(body)) && StmtsAt(g, s1, body, |s0|)
    ensures |s0| <= |s1|
    ensures var t := s1 + [Ins(Yield), Ins(Jump(|s0|))];
            Grown(s0, t, StmtLen(InfLoop(body))) && StmtAt(g, t, InfLoop(body), |s0|)
  {
    hide StmtsAt, StmtsLen, ForAt, ExprAt, Arity, Callable, ExprLen, ExprsAt, ExprsLen, Is, LowerDo;
    var t := s1 + [Ins(Yield), Ins(Jump(|s0|))];
    StmtsKept(g, s1, t, body, |s0|);
    LoopEndIs(t, |s1|, |s0|);
  }

  lemma LoopEndIs(code: seq<Slot>, a: nat, to: nat)
    requires a + 2 <= |code| && code[a] == Ins(Yield) && code[a + 1] == Ins(Jump(to))
    ensures Are(code, a, [Yield, Jump(to)])
  {
  }

  lemma UntilBuilt(g: Scope, s0: seq<Slot>, s1: seq<Slot>, s2: seq<Slot>, t: seq<Slot>, tail: seq<Slot>, cond: Expr,
                   body: seq<Stmt>)
    requires Grown(s0, s1, ExprLen(cond)) && ExprAt(g, s1, cond, |s0|)
    requires Grown(s1 + [Pending], s2, StmtsLen(body)) && StmtsAt(g, s2, body, |s1| + 1) && |s1| < |s2|
    requires tail == [Ins(Yield), Ins(Jump(|s0|))] && t == (s2 + tail)[|s1| := Ins(ConditionalJump(|s2| + 2, true))]
    ensures Grown(s0, t, StmtLen(UntilLoop(cond, body))) && StmtAt(g, t, UntilLoop(cond, body), |s0|)
  {
    hide *;
    var x := Ins(ConditionalJump(|s2| + 2, true));
    LoopSlots(s0, s1, s2, t, ExprLen(cond), [Pending], 0, x, tail, [], StmtsLen(body));
    ExprKept(g, s1, t, cond, |s0|);
    StmtsKept(g, s2, t, body, |s1| + 1);
    assert t[|s1| + 0] == x && t[|s2| + 0] == tail[0] && t[|s2| + 1] == tail[1];
    OneIs(t, |s1|, ConditionalJump(|s2| + 2, true));
    LoopEndIs(t, |s2|, |s0|);
    UntilParts(g, t, cond, body, |s0|);
  }

  lemma RepeatHeadIs(code: seq<Slot>, a: nat, tail: nat)
    requires a + 4 <= |code| && code[a] == Ins(DupeValue(0)) && code[a + 1] == Ins(PushInt(0))
             && code[a + 2] == Ins(Cmp(Greater))
    requires code[a + 3] == Ins(ConditionalJump(tail + 4, false))
    ensures Are(code, a, RepeatHead(tail))
  {
  }

  lemma RepeatTailIs(code: seq<Slot>, b: nat, top: nat)
    requires b + 5 <= |code| && code[b] == Ins(PushInt(1)) && code[b + 1] == Ins(Binary(Sub))
             && code[b + 2] == Ins(Yield)
    requires code[b + 3] == Ins(Jump(top)) && code[b + 4] == Ins(PopValue)
    ensures Are(code, b, RepeatTail(top))
  {
  }

  lemma AppendThree(s: seq<Slot>, a: Slot, b: Slot, c: Slot)
    ensures s + [a] + [b] + [c] == s + [a, b, c]
  {
  }

  lemma AppendFour(s: seq<Slot>, a: Slot, b: Slot, c: Slot, d: Slot)
    ensures s + [a] + [b] + [c] + [d] == s + [a, b, c, d]
  {
  }

  lemma AppendSix(s: seq<Slot>, a: Slot, b: Slot, c: Slot, d: Slot, e: Slot, f: Slot)
    ensures s + [a] + [b] + [c] + [d] + [e] + [f] == s + [a, b, c, d, e, f]
  {
  }

  lemma GrownNone(s: seq<Slot>)
    ensures Grown(s, s, 0)
  {
  }

  lemma GrownSize(s: seq<Slot>, t: seq<Slot>, n: nat)
    requires Grown(s, t, n)
    ensures |t| == |s| + n
  {
  }

  /** What is appended behind a stretch leaves its open positions open. */
  lemma StillOpen(m: seq<Slot>, s2: seq<Slot>, n: nat, p: nat)
    requires Grown(m, s2, n) && p < |m|
    ensures p < |s2| && s2[p] == m[p]
  {
  }

  /** A stretch `head` with one open position, more code, and two more stretches; the open position is
      filled in before the last one. */
  lemma LoopSlots(s0: seq<Slot>, s1: seq<Slot>, s2: seq<Slot>, t: seq<Slot>, m: nat, head: seq<Slot>, k: nat, x: Slot,
                  tail: seq<Slot>, end: seq<Slot>, n: nat)
    requires Grown(s0, s1, m)
    requires Grown(s1 + head, s2, n) && k < |head| && !x.Pending?
    requires forall i :: 0 <= i < |head| && i != k ==> !head[i].Pending?
    requires (forall i :: 0 <= i < |tail| ==> !tail[i].Pending?) && (forall i :: 0 <= i < |end| ==> !end[i].Pending?)
    requires t == (s2 + tail)[|s1| + k := x] + end
    ensures |s1| == |s0| + m && |s2| == |s1| + |head| + n && |t| == |s2| + |tail| + |end|
    ensures Grown(s0, t, |t| - |s0|) && Agree(s1, t, 0, |s1|) && Agree(s1, t, |s0|, m) && Agree(s2, t, |s1| + |head|, n)
    ensures forall i :: 0 <= i < |head| ==> t[|s1| + i] == if i == k then x else head[i]
    ensures forall i :: 0 <= i < |tail| ==> t[|s2| + i] == tail[i]
    ensures forall i :: 0 <= i < |end| ==> t[|s2| + |tail| + i] == end[i]
  {
    var d := s1 + head;
    forall i | 0 <= i < |head| ensures s2[|s1| + i] == head[i] {
      assert s2[|s1| + i] == d[|s1| + i];
    }
    forall p | 0 <= p < |s1| ensures t[p] == s1[p] {
      assert s2[p] == d[p];
    }
    forall p | |s0| <= p < |t| ensures !t[p].Pending? {
      if p < |s1| {
        assert t[p] == s1[p];
      } else if p < |d| {
        assert t[p] == if p - |s1| == k then x else head[p - |s1|];
      } else if |s2| <= p < |s2| + |tail| {
        assert t[p] == tail[p - |s2|];
      } else if |s2| + |tail| <= p {
        assert t[p] == end[p - |s2| - |tail|];
      }
    }
    assert s0 <= t;
  }

  lemma RepeatBuilt(g: Scope, s0: seq<Slot>, s1: seq<Slot>, s2: seq<Slot>, t: seq<Slot>, head: seq<Slot>,
                    tail: seq<Slot>, times: Expr, body: seq<Stmt>)
    requires Grown(s0, s1, ExprLen(times)) && ExprAt(g, s1, times, |s0|)
    requires head == [Ins(DupeValue(0)), Ins(PushInt(0)), Ins(Cmp(Greater)), Pending]
    requires tail == [Ins(PushInt(1)), Ins(Binary(Sub)), Ins(Yield), Ins(Jump(|s1|))]
    requires Grown(s1 + head, s2, StmtsLen(body)) && StmtsAt(g, s2, body, |s1| + 4) && |s1| + 3 < |s2|
    requires t == (s2 + tail)[|s1| + 3 := Ins(ConditionalJump(|s2| + 4, false))] + [Ins(PopValue)]
    ensures Grown(s0, t, StmtLen(Repeat(times, body))) && StmtAt(g, t, Repeat(times, body), |s0|)
  {
    hide *;
    var x, end := Ins(ConditionalJump(|s2| + 4, false)), [Ins(PopValue)];
    LoopSlots(s0, s1, s2, t, ExprLen(times), head, 3, x, tail, end, StmtsLen(body));
    var a, b := |s1|, |s2|;
    ExprKept(g, s1, t, times, |s0|);
    StmtsKept(g, s2, t, body, a + 4);
    assert Are(t, a, RepeatHead(b)) by {
      assert t[a + 0] == head[0] && t[a + 1] == head[1] && t[a + 2] == head[2] && t[a + 3] == x;
      RepeatHeadIs(t, a, b);
    }
    assert Are(t, b, RepeatTail(a)) by {
      assert t[b + 0] == tail[0] && t[b + 1] == tail[1] && t[b + 2] == tail[2] && t[b + 3] == tail[3]
             && t[b + 4 + 0] == end[0];
      RepeatTailIs(t, b, a);
    }
    RepeatParts(g, t, times, body, |s0|);
  }

  lemma ForeachHeadIs(code: seq<Slot>, a: nat, tail: nat, trans: Str)
    requires a + 3 <= |code| && code[a] == Ins(DupeValue(0)) && code[a + 1] == Ins(ListPopFirstOrElse(tail + 2))
             && code[a + 2] == Ins(Assign(trans))
    ensures Are(code, a, ForeachHead(tail, trans))
  {
  }

  lemma ForeachTailIs(code: seq<Slot>, b: nat, top: nat)
    requires b + 3 <= |code| && code[b] == Ins(Yield) && code[b + 1] == Ins(Jump(top)) && code[b + 2] == Ins(PopValue)
    ensures Are(code, b, ForeachTail(top))
  {
  }

  lemma ForeachBuilt(g: Scope, s0: seq<Slot>, s1: seq<Slot>, s2: seq<Slot>, t: seq<Slot>, head: seq<Slot>,
                     tail: seq<Slot>, v: Var, items: Expr, body: seq<Stmt>)
    requires Grown(s0 + [Ins(DeclareLocal(v.name))], s1, ExprLen(items)) && ExprAt(g, s1, items, |s0| + 1)
    requires head == [Ins(Variadic(MakeList, Dynamic)), Ins(DupeValue(0)), Pending, Ins(Assign(v.trans))]
    requires tail == [Ins(Yield), Ins(Jump(|s1| + 1))]
    requires Grown(s1 + head, s2, StmtsLen(body)) && StmtsAt(g, s2, body, |s1| + 4) && |s1| + 2 < |s2|
    requires t == (s2 + tail)[|s1| + 2 := Ins(ListPopFirstOrElse(|s2| + 2))] + [Ins(PopValue)]
    ensures Grown(s0, t, StmtLen(ForeachLoop(v, items, body))) && StmtAt(g, t, ForeachLoop(v, items, body), |s0|)
  {
    hide *;
    var a, b := |s1|, |s2|;
    Declared(s0, s1, Ins(DeclareLocal(v.name)), ExprLen(items));
    ForeachSlots(s0, s1, s2, t, head, tail, v.trans, ExprLen(items) + 1, StmtsLen(body));
    AgreeSlot(s1, t, 0, a, |s0|);
    AgreePart(s1, t, 0, a, |s0| + 1, ExprLen(items));
    ExprKept(g, s1, t, items, |s0| + 1);
    StmtsKept(g, s2, t, body, a + 4);
    OneIs(t, |s0|, DeclareLocal(v.name));
    OneIs(t, a, Variadic(MakeList, Dynamic));
    ForeachParts(g, t, v, items, body, |s0|);
  }

  /** The code around the body of a loop over items. */
  lemma ForeachSlots(s0: seq<Slot>, s1: seq<Slot>, s2: seq<Slot>, t: seq<Slot>, head: seq<Slot>, tail: seq<Slot>,
                     name: Str, m: nat, n: nat)
    requires Grown(s0, s1, m) && Grown(s1 + head, s2, n)
    requires head == [Ins(Variadic(MakeList, Dynamic)), Ins(DupeValue(0)), Pending, Ins(Assign(name))]
             && tail == [Ins(Yield), Ins(Jump(|s1| + 1))]
    requires |s1| + 2 < |s2| && t == (s2 + tail)[|s1| + 2 := Ins(ListPopFirstOrElse(|s2| + 2))] + [Ins(PopValue)]
    ensures |s1| == |s0| + m && |s2| == |s1| + 4 + n && |t| == |s2| + 3
    ensures Grown(s0, t, |t| - |s0|) && Agree(s1, t, 0, |s1|) && Agree(s2, t, |s1| + 4, n)
    ensures t[|s1|] == head[0] && Are(t, |s1| + 1, ForeachHead(|s2|, name)) && Are(t, |s2|, ForeachTail(|s1| + 1))
  {
    hide *;
    var x, end := Ins(ListPopFirstOrElse(|s2| + 2)), [Ins(PopValue)];
    var a, b := |s1|, |s2|;
    LoopSlots(s0, s1, s2, t, m, head, 2, x, tail, end, n);
    assert t[a + 0] == head[0] && t[a + 1] == head[1] && t[a + 2] == x && t[a + 3] == head[3];
    ForeachHeadIs(t, a + 1, b, name);
    assert t[b + 0] == tail[0] && t[b + 1] == tail[1] && t[b + 2 + 0] == end[0];
    ForeachTailIs(t, b, a + 1);
  }

  /** One more slot in front of a stretch. */
  lemma Declared(s0: seq<Slot>, s1: seq<Slot>, x: Slot, n: nat)
    requires Grown(s0 + [x], s1, n) && !x.Pending?
    ensures Grown(s0, s1, n + 1) && |s0| < |s1| && s1[|s0|] == x
  {
    var d := s0 + [x];
    assert d[|s0|] == s1[|s0|];
    forall p | 0 <= p < |s0| ensures s1[p] == s0[p] {
      assert s1[p] == d[p];
    }
  }

  lemma IfBuilt(g: Scope, s0: seq<Slot>, s1: seq<Slot>, s2: seq<Slot>, t: seq<Slot>, cond: Expr, then_: seq<Stmt>)
    requires Grown(s0, s1, ExprLen(cond)) && ExprAt(g, s1, cond, |s0|)
    requires Grown(s1 + [Pending], s2, StmtsLen(then_)) && StmtsAt(g, s2, then_, |s1| + 1) && |s1| < |s2|
    requires t == s2[|s1| := Ins(ConditionalJump(|s2|, false))]
    ensures Grown(s0, t, StmtLen(If(cond, then_))) && StmtAt(g, t, If(cond, then_), |s0|)
  {
    hide *;
    var x := Ins(ConditionalJump(|s2|, false));
    assert t == (s2 + [])[|s1| := x] + [];
    LoopSlots(s0, s1, s2, t, ExprLen(cond), [Pending], 0, x, [], [], StmtsLen(then_));
    ExprKept(g, s1, t, cond, |s0|);
    StmtsKept(g, s2, t, then_, |s1| + 1);
    assert t[|s1| + 0] == x;
    OneIs(t, |s1|, ConditionalJump(|s2|, false));
    IfParts(g, t, cond, then_, |s0|);
  }

  lemma IfParts(g: Scope, code: seq<Slot>, cond: Expr, then_: seq<Stmt>, pc: nat)
    ensures var a := pc + ExprLen(cond);
            StmtAt(g, code, If(cond, then_), pc)
            <==> ExprAt(g, code, cond, pc) && Is(code, a, ConditionalJump(a + 1 + StmtsLen(then_), false))
                 && StmtsAt(g, code, then_, a + 1)
    ensures StmtLen(If(cond, then_)) == ExprLen(cond) + StmtsLen(then_) + 1
  {
    hide Are, Is, ExprAt, ExprsAt, StmtsAt, ForAt, ExprLen, StmtsLen, Callable, DeclaresAt;
  }

  lemma IfElseSlots(s0: seq<Slot>, s1: seq<Slot>, s2: seq<Slot>, s3: seq<Slot>, t: seq<Slot>, x: Slot, y: Slot, l: nat,
                    m: nat, n: nat)
    requires Grown(s0, s1, l) && Grown(s1 + [Pending], s2, m) && Grown(s2 + [Pending], s3, n) && !x.Pending?
             && !y.Pending?
    requires |s1| < |s2| < |s3| && t == s3[|s1| := x][|s2| := y]
    ensures |s1| == |s0| + l && |s2| == |s1| + 1 + m && |s3| == |s2| + 1 + n && |t| == |s3|
    ensures Grown(s0, t, l + m + n + 2) && t[|s1|] == x && t[|s2|] == y
    ensures Agree(s1, t, |s0|, l) && Agree(s2, t, |s1| + 1, m) && Agree(s3, t, |s2| + 1, n)
  {
    var d, e := s1 + [Pending], s2 + [Pending];
    forall p | 0 <= p < |s2| ensures s3[p] == s2[p] {
      assert s3[p] == e[p];
    }
    forall p | 0 <= p < |s1| ensures t[p] == s1[p] {
      assert s2[p] == d[p];
    }
    forall p | |s0| <= p < |t| ensures !t[p].Pending? {
      if p < |s1| {
        assert t[p] == s1[p];
      } else if |s1| < p < |s2| {
        assert t[p] == s2[p];
      }
    }
    assert s0 <= t;
  }

  lemma IfElseBuilt(g: Scope, s0: seq<Slot>, s1: seq<Slot>, s2: seq<Slot>, s3: seq<Slot>, t: seq<Slot>, cond: Expr,
                    then_: seq<Stmt>, else_: seq<Stmt>)
    requires Grown(s0, s1, ExprLen(cond)) && ExprAt(g, s1, cond, |s0|)
    requires Grown(s1 + [Pending], s2, StmtsLen(then_)) && StmtsAt(g, s2, then_, |s1| + 1)
    requires Grown(s2 + [Pending], s3, StmtsLen(else_)) && StmtsAt(g, s3, else_, |s2| + 1)
    requires |s1| < |s2| < |s3| && t == s3[|s1| := Ins(ConditionalJump(|s2| + 1, false))][|s2| := Ins(Jump(|s3|))]
    ensures Grown(s0, t, StmtLen(IfElse(cond, then_, else_))) && StmtAt(g, t, IfElse(cond, then_, else_), |s0|)
  {
    hide *;
    IfElseSlots(s0, s1, s2, s3, t, Ins(ConditionalJump(|s2| + 1, false)), Ins(Jump(|s3|)), ExprLen(cond),
                StmtsLen(then_), StmtsLen(else_));
    ExprKept(g, s1, t, cond, |s0|);
    StmtsKept(g, s2, t, then_, |s1| + 1);
    StmtsKept(g, s3, t, else_, |s2| + 1);
    OneIs(t, |s1|, ConditionalJump(|s2| + 1, false));
    OneIs(t, |s2|, Jump(|s3|));
    IfElseParts(g, t, cond, then_, else_, |s0|);
  }

  lemma ConditionalBuilt(g: Scope, s0: seq<Slot>, s1: seq<Slot>, s2: seq<Slot>, s3: seq<Slot>, t: seq<Slot>, cond: Expr,
                         then_: Expr, else_: Expr)
    requires Grown(s0, s1, ExprLen(cond)) && ExprAt(g, s1, cond, |s0|)
    requires Grown(s1 + [Pending], s2, ExprLen(then_)) && ExprAt(g, s2, then_, |s1| + 1)
    requires Grown(s2 + [Pending], s3, ExprLen(else_)) && ExprAt(g, s3, else_, |s2| + 1)
    requires |s1| < |s2| < |s3| && t == s3[|s1| := Ins(ConditionalJump(|s2| + 1, false))][|s2| := Ins(Jump(|s3|))]
    ensures Grown(s0, t, ExprLen(Conditional(cond, then_, else_)))
            && ExprAt(g, t, Conditional(cond, then_, else_), |s0|)
  {
    hide *;
    IfElseSlots(s0, s1, s2, s3, t, Ins(ConditionalJump(|s2| + 1, false)), Ins(Jump(|s3|)), ExprLen(cond),
                ExprLen(then_), ExprLen(else_));
    var pc, test, jump := |s0|, |s1|, |s2|;
    assert test == pc + ExprLen(cond) && jump == test + 1 + ExprLen(then_) && |s3| == jump + 1 + ExprLen(else_);
    ExprKept(g, s1, t, cond, pc);
    ExprKept(g, s2, t, then_, test + 1);
    ExprKept(g, s3, t, else_, jump + 1);
    OneIs(t, test, ConditionalJump(jump + 1, false));
    OneIs(t, jump, Jump(|s3|));
    ConditionalParts(g, t, cond, then_, else_, |s0|);
  }

  lemma RescueIs(code: seq<Slot>, a: nat, end: nat)
    requires a + 3 <= |code| && code[a] == Ins(PopHandler) && code[a + 1] == Ins(Jump(end))
             && code[a + 2] == Ins(PopHandler)
    ensures Are(code, a, [PopHandler, Jump(end), PopHandler])
  {
  }

  lemma TrySlots(s0: seq<Slot>, s1: seq<Slot>, s2: seq<Slot>, t: seq<Slot>, rescue: seq<Slot>, x: Slot, y: Slot,
                 m: nat, n: nat)
    requires Grown(s0 + [Pending], s1, m) && Grown(s1 + rescue, s2, n) && |rescue| == 3 && !x.Pending? && !y.Pending?
    requires !rescue[0].Pending? && !rescue[2].Pending?
    requires |s0| < |s1| && |s1| + 2 < |s2| && t == s2[|s0| := x][|s1| + 1 := y]
    ensures |s1| == |s0| + 1 + m && |s2| == |s1| + 3 + n && |t| == |s2|
    ensures Grown(s0, t, m + n + 4) && t[|s0|] == x && t[|s1|] == rescue[0] && t[|s1| + 1] == y
            && t[|s1| + 2] == rescue[2]
    ensures Agree(s1, t, |s0| + 1, m) && Agree(s2, t, |s1| + 3, n)
  {
    var d, e := s0 + [Pending], s1 + rescue;
    forall p | 0 <= p < |s1| ensures s2[p] == s1[p] {
      assert s2[p] == e[p];
    }
    assert s2[|s1|] == e[|s1|] && s2[|s1| + 1] == e[|s1| + 1] && s2[|s1| + 2] == e[|s1| + 2];
    forall p | 0 <= p < |s0| ensures t[p] == s0[p] {
      assert s1[p] == d[p];
    }
    forall p | |s0| <= p < |t| ensures !t[p].Pending? {
      if |s0| < p < |s1| {
        assert t[p] == s1[p];
      }
    }
    assert s0 <= t;
  }

  lemma TryBuilt(g: Scope, s0: seq<Slot>, s1: seq<Slot>, s2: seq<Slot>, t: seq<Slot>, rescue: seq<Slot>,
                 body: seq<Stmt>, name: Str, handler: seq<Stmt>)
    requires Grown(s0 + [Pending], s1, StmtsLen(body)) && StmtsAt(g, s1, body, |s0| + 1)
    requires rescue == [Ins(PopHandler), Pending, Ins(PopHandler)]
    requires Grown(s1 + rescue, s2, StmtsLen(handler)) && StmtsAt(g, s2, handler, |s1| + 3)
    requires |s0| < |s1| && |s1| + 2 < |s2|
             && t == s2[|s0| := Ins(PushHandler(|s1| + 2, name))][|s1| + 1 := Ins(Jump(|s2|))]
    ensures Grown(s0, t, StmtLen(TryCatch(body, name, handler))) && StmtAt(g, t, TryCatch(body, name, handler), |s0|)
  {
    hide *;
    var a := |s1|;
    TrySlots(s0, s1, s2, t, rescue, Ins(PushHandler(a + 2, name)), Ins(Jump(|s2|)), StmtsLen(body), StmtsLen(handler));
    StmtsKept(g, s1, t, body, |s0| + 1);
    StmtsKept(g, s2, t, handler, a + 3);
    OneIs(t, |s0|, PushHandler(a + 2, name));
    RescueIs(t, a, |s2|);
    TryParts(g, t, body, name, handler, |s0|);
  }

  // ----- counting loops -----

  lemma ForPreludeStart(q: nat)
    ensures var c := ForPrelude(q);
            && |c| == 12 && Stands(c, 0, DupeValue(1)) && Stands(c, 1, DupeValue(1)) && Stands(c, 2, Cmp(Greater))
            && Stands(c, 3, ConditionalJump(q + 6, true))
  {
  }

  lemma ForPreludeMiddle(q: nat)
    ensures var c := ForPrelude(q);
            && |c| == 12 && Stands(c, 4, PushInt(1)) && Stands(c, 5, Jump(q + 7)) && Stands(c, 6, PushInt(-1))
            && Stands(c, 7, SwapValues(0, 2))
  {
  }

  lemma ForPreludeEnd(q: nat)
    ensures var c := ForPrelude(q);
            && |c| == 12 && Stands(c, 8, SwapValues(0, 1)) && Stands(c, 9, DupeValue(1)) && Stands(c, 10, Binary(Sub))
            && Stands(c, 11, Unary(Abs))
  {
  }

  function StepSlots(top: nat): seq<Slot> {
    [Ins(PushInt(1)), Ins(Binary(Sub)), Ins(DupeValue(1)), Ins(DupeValue(3)), Ins(Binary(Add)), Ins(SwapValues(0, 2)),
     Ins(PopValue), Ins(Yield), Ins(Jump(top))]
  }

  lemma StepIs(s: seq<Slot>, top: nat)
    ensures s + [Ins(PushInt(1))] + [Ins(Binary(Sub))] + [Ins(DupeValue(1))] + [Ins(DupeValue(3))] + [Ins(Binary(Add))]
            + [Ins(SwapValues(0, 2))] + [Ins(PopValue)] + [Ins(Yield)] + [Ins(Jump(top))] == s + StepSlots(top)
    ensures |StepSlots(top)| == 9
  {
  }

  function HeadSlots(trans: Str): seq<Slot> {
    [Ins(DupeValue(0)), Ins(PushInt(0)), Ins(Cmp(Less)), Pending, Ins(DupeValue(1)), Ins(Assign(trans))]
  }

  lemma HeadSize(s: seq<Slot>, trans: Str)
    ensures HeadSlots(trans) == [Ins(DupeValue(0)), Ins(PushInt(0)), Ins(Cmp(Less)), Pending, Ins(DupeValue(1)),
                                 Ins(Assign(trans))]
    ensures |s + HeadSlots(trans)| == |s| + 6 && (s + HeadSlots(trans))[|s| + 3].Pending?
  {
  }

  lemma HeadWhole(trans: Str)
    ensures |HeadSlots(trans)| == 6 && forall i :: 0 <= i < 6 && i != 3 ==> !HeadSlots(trans)[i].Pending?
  {
  }

  lemma ForHeadIs(code: seq<Slot>, a: nat, tail: nat, trans: Str)
    requires a + 6 <= |code| && |HeadSlots(trans)| == 6
    requires forall i :: 0 <= i < 6 ==>
               code[a + i] == if i == 3 then Ins(ConditionalJump(tail + 9, true)) else HeadSlots(trans)[i]
    ensures Are(code, a, ForHead(tail, trans))
  {
    var c := ForHead(tail, trans);
    forall i | 0 <= i < 6 ensures code[a + i] == Ins(c[i]) {
      var h := HeadSlots(trans)[i];
      assert i == 3 || HeadSlots(trans)[i] == Ins(c[i]);
    }
  }

  lemma ForTailIs(code: seq<Slot>, b: nat, top: nat)
    requires b + 12 <= |code| && |StepSlots(top)| == 9 && (forall i :: 0 <= i < 9 ==> code[b + i] == StepSlots(top)[i])
    requires code[b + 9] == code[b + 10] == code[b + 11] == Ins(PopValue)
    ensures Are(code, b, ForTail(top))
  {
    var c := ForTail(top);
    forall i | 0 <= i < 12 ensures code[b + i] == Ins(c[i]) {
      if i < 9 {
        assert code[b + i] == StepSlots(top)[i];
        assert StepSlots(top)[i] == Ins(c[i]);
      }
    }
  }

  lemma RoundsBuilt(g: Scope, s0: seq<Slot>, s1: seq<Slot>, t: seq<Slot>, trans: Str, body: seq<Stmt>)
    requires Grown(s0 + HeadSlots(trans), s1, StmtsLen(body)) && StmtsAt(g, s1, body, |s0| + 6) && |s0| + 3 < |s1|
    requires t == (s1 + StepSlots(|s0|))[|s0| + 3 := Ins(ConditionalJump(|s1| + 9, true))]
             + [Ins(PopValue), Ins(PopValue), Ins(PopValue)]
    ensures Grown(s0, t, StmtsLen(body) + 18) && RoundsAt(g, t, trans, body, |s0|)
  {
    hide *;
    RoundsSlots(s0, s1, t, trans, StmtsLen(body));
    StmtsKept(g, s1, t, body, |s0| + 6);
    RoundsParts(g, t, trans, body, |s0|);
  }

  /** The code around the body of a counting loop. */
  lemma RoundsSlots(s0: seq<Slot>, s1: seq<Slot>, t: seq<Slot>, trans: Str, n: nat)
    requires Grown(s0 + HeadSlots(trans), s1, n) && |s0| + 3 < |s1|
    requires t == (s1 + StepSlots(|s0|))[|s0| + 3 := Ins(ConditionalJump(|s1| + 9, true))]
             + [Ins(PopValue), Ins(PopValue), Ins(PopValue)]
    ensures |s1| == |s0| + 6 + n && Grown(s0, t, n + 18) && Agree(s1, t, |s0| + 6, n)
    ensures Are(t, |s0|, ForHead(|s1|, trans)) && Are(t, |s1|, ForTail(|s0|))
  {
    hide *;
    var x, tail, end := Ins(ConditionalJump(|s1| + 9, true)), StepSlots(|s0|),
        [Ins(PopValue), Ins(PopValue), Ins(PopValue)];
    StepsWhole(|s0|);
    HeadWhole(trans);
    GrownNone(s0);
    LoopSlots(s0, s0, s1, t, 0, HeadSlots(trans), 3, x, tail, end, n);
    ForHeadIs(t, |s0|, |s1|, trans);
    RoundsEnd(t, |s1|, |s0|, end);
  }

  lemma RoundsEnd(t: seq<Slot>, b: nat, top: nat, end: seq<Slot>)
    requires b + 12 <= |t| && |StepSlots(top)| == 9 && end == [Ins(PopValue), Ins(PopValue), Ins(PopValue)]
    requires forall i :: 0 <= i < 9 ==> t[b + i] == StepSlots(top)[i]
    requires forall i :: 0 <= i < 3 ==> t[b + 9 + i] == end[i]
    ensures Are(t, b, ForTail(top))
  {
    hide *;
    assert t[b + 9 + 0] == end[0] && t[b + 9 + 1] == end[1] && t[b + 9 + 2] == end[2];
    ForTailIs(t, b, top);
  }

  lemma RoundsParts(g: Scope, t: seq<Slot>, trans: Str, body: seq<Stmt>, top: nat)
    requires var d := top + 6 + StmtsLen(body);
             Are(t, top, ForHead(d, trans)) && StmtsAt(g, t, body, top + 6) && Are(t, d, ForTail(top))
    ensures RoundsAt(g, t, trans, body, top)
  {
    hide Are, StmtsAt, StmtsLen;
  }

  lemma ForBuilt(g: Scope, s0: seq<Slot>, s1: seq<Slot>, t: seq<Slot>, v: Var, start: Expr, stop: Expr, body: seq<Stmt>)
    requires Grown(s0, s1, ExprLen(start) + ExprLen(stop) + 15) && RangeAt(g, s1, v, start, stop, |s0|)
    requires Grown(s1, t, StmtsLen(body) + 18) && RoundsAt(g, t, v.trans, body, |s1|)
    ensures Grown(s0, t, StmtLen(ForLoop(v, start, stop, body))) && StmtAt(g, t, ForLoop(v, start, stop, body), |s0|)
  {
    hide RangeAt, RoundsAt, ExprLen, StmtsLen;
    forall p | 0 <= p < |s1| ensures t[p] == s1[p] {
    }
    RangeKept(g, s1, t, v, start, stop, |s0|);
  }

  lemma RangeBuilt(g: Scope, s0: seq<Slot>, s1: seq<Slot>, s2: seq<Slot>, t: seq<Slot>, v: Var, start: Expr, stop: Expr)
    requires Grown(s0 + [Ins(DeclareLocal(v.name))], s1, ExprLen(start)) && ExprAt(g, s1, start, |s0| + 1)
    requires Grown(s1 + [Ins(ToNum)], s2, ExprLen(stop)) && ExprAt(g, s2, stop, |s1| + 1)
    requires Grown(s2 + [Ins(ToNum)], t, 12) && Are(t, |s2| + 1, ForPrelude(|s2| + 1))
    ensures Grown(s0, t, ExprLen(start) + ExprLen(stop) + 15) && RangeAt(g, t, v, start, stop, |s0|)
  {
    hide *;
    Declared(s0, s1, Ins(DeclareLocal(v.name)), ExprLen(start));
    Declared(s1, s2, Ins(ToNum), ExprLen(stop));
    Declared(s2, t, Ins(ToNum), 12);
    GrownJoin(s0, s1, s2, ExprLen(start) + 1, ExprLen(stop) + 1);
    GrownJoin(s1, s2, t, ExprLen(stop) + 1, 13);
    GrownJoin(s0, s2, t, ExprLen(start) + ExprLen(stop) + 2, 13);
    OneIs(t, |s0|, DeclareLocal(v.name));
    OneIs(t, |s1|, ToNum);
    OneIs(t, |s2|, ToNum);
    AgreePart(s1, t, 0, |s1|, |s0| + 1, ExprLen(start));
    ExprKept(g, s1, t, start, |s0| + 1);
    AgreePart(s2, t, 0, |s2|, |s1| + 1, ExprLen(stop));
    ExprKept(g, s2, t, stop, |s1| + 1);
    RangeParts(g, t, v, start, stop, |s0|, |s1|, |s2|);
  }

  lemma GrownJoin(s: seq<Slot>, t: seq<Slot>, u: seq<Slot>, m: nat, n: nat)
    requires Grown(s, t, m) && Grown(t, u, n)
    ensures Grown(s, u, m + n) && |t| == |s| + m && |u| == |t| + n && Agree(t, u, 0, |t|)
    ensures |s| < |t| ==> u[|s|] == t[|s|]
  {
    forall p | 0 <= p < |t| ensures u[p] == t[p] {
    }
  }

  lemma StepsWhole(top: nat)
    ensures |StepSlots(top)| == 9 && forall i :: 0 <= i < 9 ==> !StepSlots(top)[i].Pending?
  {
    StepIs([], top);
  }

  lemma LowerAims(op: SimpleOp, n: nat)
    ensures Aims(Lower(op), n)
  {
  }

  lemma ConditionalOk(g: Scope, cond: Expr, then_: Expr, else_: Expr)
    ensures SupportedExpr(g, Conditional(cond, then_, else_)) <==>
              SupportedExpr(g, cond) && SupportedExpr(g, then_) && SupportedExpr(g, else_)
    ensures LambdasExpr(Conditional(cond, then_, else_)) == LambdasExpr(cond) + LambdasExpr(then_) + LambdasExpr(else_)
  {
    hide Arity, Callable, LambdasBody, Lower, NulFree, SupportedAll, SupportedBody;
  }

  lemma HigherOk(g: Scope, f: Expr, list: Expr)
    ensures SupportedExpr(g, Map(f, list)) <==> SupportedExpr(g, f) && SupportedExpr(g, list)
    ensures SupportedExpr(g, Keep(f, list)) <==> SupportedExpr(g, f) && SupportedExpr(g, list)
    ensures SupportedExpr(g, FindFirst(f, list)) <==> SupportedExpr(g, f) && SupportedExpr(g, list)
    ensures SupportedExpr(g, FoldWith(f, list)) <==> SupportedExpr(g, f) && SupportedExpr(g, list)
    ensures LambdasExpr(Map(f, list)) == LambdasExpr(Keep(f, list)) == LambdasExpr(FindFirst(f, list))
            == LambdasExpr(FoldWith(f, list)) == LambdasExpr(f) + LambdasExpr(list)
  {
    hide Arity, Callable, LambdasBody, Lower, NulFree, SupportedAll, SupportedBody;
  }

  lemma DeclaresKept(code: seq<Slot>, code': seq<Slot>, names: seq<Str>, pc: nat)
    requires DeclaresAt(code, names, pc) && Agree(code, code', pc, |names|)
    ensures DeclaresAt(code', names, pc)
  {
  }

  lemma AimsWider(i: Instruction, n: nat, m: nat)
    requires Aims(i, n) && n <= m
    ensures Aims(i, m)
  {
  }
}
