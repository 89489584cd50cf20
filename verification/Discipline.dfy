/** The stacks of a running process. In every state it reaches, each activation stands at the level its code fixes
    for the instruction it is at, and the open handlers are in order; so a handler finds the stacks as it left them. */
module Discipline {
  import opened Common
  import opened Bytecode
  import opened Values
  import opened Elementwise
  import opened Machine
  import opened Tokens
  import opened Ast
  import opened Source
  import opened Codegen
  import opened Simulation
  import opened Calls
  import opened Compiled
  import opened Levels
  import opened CodeLevels
  import opened Laying

  // ----- what one step does to the stacks -----

  ghost predicate SameFrames(a: seq<Frame>, b: seq<Frame>) {
    && |a| == |b| >= 1
    && var top := |a| - 1;
       b[..top] == a[..top] && b[top] == a[top].(locals := b[top].locals)
  }

  /** Takes `n` values and leaves `k`; at most the variables of the running activation change. */
  ghost predicate Moves(s: State, t: State, n: nat, k: nat) {
    && SameFrames(s.calls, t.calls) && t.handlers == s.handlers && s.closures <= t.closures
    && n <= |s.values| && |t.values| == |s.values| - n + k
    && t.values[..|s.values| - n] == s.values[..|s.values| - n]
  }

  /** Takes `n` values and starts an activation. */
  ghost predicate Enters(s: State, t: State, n: int, aft: nat) {
    && 0 <= n <= |s.values| && t.values == s.values[..|s.values| - n]
    && t.handlers == s.handlers && t.closures == s.closures
    && |t.calls| == |s.calls| + 1 && t.calls[..|s.calls|] == s.calls
    && var f := t.calls[|s.calls|];
       f.returnTo == Some(aft) && f.valueSize == |t.values| && f.handlerSize == |s.handlers|
  }

  /** Ends the running activation, and leaves one value to the one below. */
  ghost predicate Ends(s: State, t: State) {
    && |s.calls| >= 2 && t.calls == s.calls[..|s.calls| - 1] && t.closures == s.closures
    && var top := s.calls[|s.calls| - 1];
       && top.valueSize < |s.values| && top.handlerSize <= |s.handlers| && top.returnTo == Some(t.pos)
       && |t.values| == top.valueSize + 1 && t.values[..top.valueSize] == s.values[..top.valueSize]
       && t.handlers == s.handlers[..top.handlerSize]
  }

  ghost predicate Opens(s: State, t: State, to: nat) {
    && t.calls == s.calls && t.values == s.values && t.closures == s.closures
    && |t.handlers| == |s.handlers| + 1 && t.handlers[..|s.handlers|] == s.handlers
    && var h := t.handlers[|s.handlers|];
       h.pos == to && h.callSize == |s.calls| && h.valueSize == |s.values| && h.warp == s.warp
  }

  ghost predicate Closes(s: State, t: State) {
    && t.calls == s.calls && t.values == s.values && t.closures == s.closures
    && s.handlers != [] && t.handlers == s.handlers[..|s.handlers| - 1]
  }

  /** Resumes at the innermost handler. */
  ghost predicate Resumes(s: State, t: State) {
    && s.handlers != [] && t.handlers == s.handlers && t.closures == s.closures
    && var h := s.handlers[|s.handlers| - 1];
       && 1 <= h.callSize <= |s.calls| && h.valueSize <= |s.values| && t.pos == h.pos && t.warp == h.warp
       && SameFrames(s.calls[..h.callSize], t.calls) && t.values == s.values[..h.valueSize]
  }

  // ----- where activations stand -----

  /** The level of the running activation. */
  function Top(ls: seq<Level>): Level {
    if ls == [] then GROUND else ls[|ls| - 1]
  }

  function WithTop(ls: seq<Level>, l: Level): seq<Level> {
    if ls == [] then [] else ls[|ls| - 1 := l]
  }

  ghost predicate Inside(all: iset<(nat, Level)>, pos: nat, l: Level) {
    (pos, l) in all && Proper(l)
  }

  lemma Members(I: Image, all: iset<(nat, Level)>)
    requires Governs(I, all)
    ensures forall pos, l :: (pos, l) in all ==> Inside(all, pos, l)
  {
    hide Flows, Proper;
  }

  lemma InsideFlows(I: Image, all: iset<(nat, Level)>, pos: nat, l: Level)
    requires Governs(I, all) && Inside(all, pos, l)
    ensures Proper(l) && FlowsAt(I, pos, l, all)
  {
    hide Proper, Flows;
  }

  /** Where activation `j` stands: the running one at the current instruction, the others where they are returned to. */
  function PosOf(s: State, j: nat): Option<nat> {
    if j + 1 < |s.calls| then s.calls[j + 1].returnTo else Some(s.pos)
  }

  /** The values there will be when it runs again. */
  function ValuesOf(s: State, j: nat): nat {
    if j + 1 < |s.calls| then s.calls[j + 1].valueSize + 1 else |s.values|
  }

  function HandlersOf(s: State, j: nat): nat {
    if j + 1 < |s.calls| then s.calls[j + 1].handlerSize else |s.handlers|
  }

  /** The handlers from `first` on are those that activation `j` has open; this is number `k` of them. */
  ghost predicate GuardAt(all: iset<(nat, Level)>, handlers: seq<Handler>, first: nat, j: nat, base: nat,
                          marks: seq<nat>, k: nat)
    requires k < |marks| && first + |marks| <= |handlers|
  {
    var h := handlers[first + k];
    h.callSize == j + 1 && h.valueSize == base + marks[k] && Inside(all, h.pos, Level(marks[k], marks[..k + 1]))
  }

  ghost predicate Posed(all: iset<(nat, Level)>, s: State, j: nat, l: Level)
    requires j < |s.calls|
  {
    var f := s.calls[j];
    && PosOf(s, j).Some? && Inside(all, PosOf(s, j).value, l)
    && ValuesOf(s, j) == f.valueSize + l.height && HandlersOf(s, j) == f.handlerSize + |l.marks| <= |s.handlers|
    && (forall k :: 0 <= k < |l.marks| ==> GuardAt(all, s.handlers, f.handlerSize, j, f.valueSize, l.marks, k))
    && (j + 1 < |s.calls| ==> 1 <= Spare(l))
  }

  /** Every activation stands at a level its code fixes; `ls` are these levels. */
  ghost predicate Sound(all: iset<(nat, Level)>, s: State, ls: seq<Level>) {
    && s.calls != [] && |ls| == |s.calls| && s.calls[0].valueSize == 0 && s.calls[0].handlerSize == 0
    && (forall j :: 0 <= j < |ls| ==> Posed(all, s, j, ls[j]))
    && forall i :: 0 <= i < |s.closures| ==> Inside(all, s.closures[i].code, GROUND)
  }

  lemma PosedProper(all: iset<(nat, Level)>, s: State, ls: seq<Level>, j: nat)
    requires Sound(all, s, ls) && j < |ls|
    ensures Proper(ls[j]) && Spare(ls[j]) >= 0 && |ls[j].marks| + s.calls[j].handlerSize <= |s.handlers|
  {
    hide Proper, GuardAt, Spare;
    assert Posed(all, s, j, ls[j]);
    SpareOf(ls[j]);
  }

  /** Floors rise from one activation to the next. */
  lemma {:induction false} FloorsRise(all: iset<(nat, Level)>, s: State, ls: seq<Level>, i: nat, j: nat)
    requires Sound(all, s, ls) && i <= j < |ls|
    ensures s.calls[i].valueSize <= s.calls[j].valueSize && s.calls[i].handlerSize <= s.calls[j].handlerSize
    ensures i < j ==> HandlersOf(s, i) <= s.calls[j].handlerSize && ValuesOf(s, i) <= s.calls[j].valueSize + 1
    ensures HandlersOf(s, i) <= |s.handlers| && s.calls[j].valueSize <= |s.values|
    decreases j - i, |ls| - j
  {
    hide Inside, GuardAt, Proper;
    assert Posed(all, s, i, ls[i]);
    assert Posed(all, s, j, ls[j]);
    PosedProper(all, s, ls, i);
    PosedProper(all, s, ls, j);
    if i < j {
      FloorsRise(all, s, ls, i + 1, j);
    } else if j + 1 < |ls| {
      FloorsRise(all, s, ls, j + 1, j + 1);
    }
  }

  /** The activation a handler belongs to. */
  lemma {:induction false} Owner(all: iset<(nat, Level)>, s: State, ls: seq<Level>, i: nat, n: nat) returns (j: nat)
    requires Sound(all, s, ls) && 0 < n <= |ls| && i < HandlersOf(s, n - 1)
    ensures j < n && s.calls[j].handlerSize <= i < HandlersOf(s, j)
    decreases n
  {
    hide Inside, GuardAt, Posed;
    if s.calls[n - 1].handlerSize <= i {
      j := n - 1;
    } else {
      j := Owner(all, s, ls, i, n - 1);
    }
  }

  /** What the activation that owns a handler says about it. */
  lemma OwnGuard(all: iset<(nat, Level)>, s: State, ls: seq<Level>, i: nat, j: nat)
    requires Sound(all, s, ls) && j < |ls| && s.calls[j].handlerSize <= i < HandlersOf(s, j)
    ensures i < |s.handlers| && i - s.calls[j].handlerSize < |ls[j].marks|
    ensures GuardAt(all, s.handlers, s.calls[j].handlerSize, j, s.calls[j].valueSize, ls[j].marks,
                    i - s.calls[j].handlerSize)
  {
    hide Inside, GuardAt;
    assert Posed(all, s, j, ls[j]);
  }

  lemma MarkBelow(l: Level, k: nat)
    requires Proper(l) && k < |l.marks|
    ensures l.marks[k] <= l.height - Spare(l) && l.height - Spare(l) == l.marks[|l.marks| - 1]
  {
  }

  /** An open handler was pushed below all that the running activation may touch, and below any activation
      above its own. */
  lemma HandlerBelow(all: iset<(nat, Level)>, s: State, ls: seq<Level>, i: nat)
    requires Sound(all, s, ls) && i < |s.handlers|
    ensures |ls| == |s.calls| >= 1
    ensures var h, top := s.handlers[i], |s.calls| - 1;
            && 1 <= h.callSize <= |s.calls| && h.valueSize <= |s.values| - Spare(ls[top]) <= |s.values|
            && (h.callSize <= top ==> h.valueSize <= s.calls[top].valueSize)
            && (i < s.calls[top].handlerSize ==> h.callSize <= top)
  {
    hide Inside, Proper, Spare;
    var top := |s.calls| - 1;
    var j := Owner(all, s, ls, i, |ls|);
    OwnGuard(all, s, ls, i, j);
    PosedProper(all, s, ls, j);
    PosedProper(all, s, ls, top);
    MarkBelow(ls[j], i - s.calls[j].handlerSize);
    assert Posed(all, s, j, ls[j]);
    assert Posed(all, s, top, ls[top]);
    TakesUp(ls[top]);
    if j < top {
      FloorsRise(all, s, ls, j + 1, top);
    }
  }

  lemma TakesUp(l: Level)
    ensures Spare(l) <= l.height
  {
  }

  /** Open handlers are in the order of their activations, and of the values below them. */
  lemma HandlersOrdered(all: iset<(nat, Level)>, s: State, ls: seq<Level>, i: nat, k: nat)
    requires Sound(all, s, ls) && i <= k < |s.handlers|
    ensures s.handlers[i].callSize <= s.handlers[k].callSize && s.handlers[i].valueSize <= s.handlers[k].valueSize
  {
    hide Inside, Spare;
    var x := Owner(all, s, ls, i, |ls|);
    var y := Owner(all, s, ls, k, |ls|);
    OwnGuard(all, s, ls, i, x);
    OwnGuard(all, s, ls, k, y);
    PosedProper(all, s, ls, x);
    PosedProper(all, s, ls, y);
    MarkBelow(ls[x], i - s.calls[x].handlerSize);
    assert Posed(all, s, x, ls[x]);
    if x < y {
      FloorsRise(all, s, ls, x + 1, y);
    } else if y < x {
      FloorsRise(all, s, ls, y, x);
      assert false;
    }
  }

  // ----- every kind of step keeps the activations sound -----

  lemma MovesSound(all: iset<(nat, Level)>, s: State, ls: seq<Level>, t: State, n: nat, k: nat)
    requires Sound(all, s, ls) && Moves(s, t, n, k)
    requires n <= Spare(Top(ls)) && Inside(all, t.pos, Shifted(Top(ls), n, k))
    requires forall i :: 0 <= i < |t.closures| ==> Inside(all, t.closures[i].code, GROUND)
    ensures Sound(all, t, WithTop(ls, Shifted(Top(ls), n, k)))
  {
    hide Inside, Spare;
    var top := |ls| - 1;
    TakesUp(ls[top]);
    var l := Shifted(ls[top], n, k);
    var now := ls[top := l];
    forall j | 0 <= j < |now| ensures Posed(all, t, j, now[j]) {
      assert Posed(all, s, j, ls[j]);
      assert t.calls[j] == s.calls[j].(locals := t.calls[j].locals);
      assert j + 1 < |ls| ==> t.calls[j + 1] == s.calls[j + 1].(locals := t.calls[j + 1].locals);
      forall i | 0 <= i < |now[j].marks|
        ensures GuardAt(all, t.handlers, t.calls[j].handlerSize, j, t.calls[j].valueSize, now[j].marks, i)
      {
        assert GuardAt(all, s.handlers, s.calls[j].handlerSize, j, s.calls[j].valueSize, ls[j].marks, i);
      }
    }
  }

  lemma EntersSound(all: iset<(nat, Level)>, s: State, ls: seq<Level>, t: State, n: nat, aft: nat)
    requires Sound(all, s, ls) && Enters(s, t, n, aft) && Inside(all, t.pos, GROUND)
    requires n <= Spare(Top(ls)) && Inside(all, aft, Shifted(Top(ls), n, 1))
    ensures Sound(all, t, WithTop(ls, Shifted(Top(ls), n, 1)) + [GROUND])
  {
    hide Inside;
    var top := |ls| - 1;
    var l := Shifted(ls[top], n, 1);
    var now := ls[top := l] + [GROUND];
    forall j | 0 <= j < |now| ensures Posed(all, t, j, now[j]) {
      if j <= top {
        assert Posed(all, s, j, ls[j]);
        assert t.calls[j] == s.calls[j];
        assert j < top ==> t.calls[j + 1] == s.calls[j + 1];
        forall i | 0 <= i < |now[j].marks|
          ensures GuardAt(all, t.handlers, t.calls[j].handlerSize, j, t.calls[j].valueSize, now[j].marks, i)
        {
          assert GuardAt(all, s.handlers, s.calls[j].handlerSize, j, s.calls[j].valueSize, ls[j].marks, i);
        }
      }
    }
    assert t.calls[0] == s.calls[0];
  }

  lemma EndsSound(all: iset<(nat, Level)>, s: State, ls: seq<Level>, t: State)
    requires Sound(all, s, ls) && Ends(s, t)
    ensures Sound(all, t, ls[..|ls| - 1])
  {
    hide Inside, Spare;
    var now := ls[..|ls| - 1];
    forall j | 0 <= j < |now| ensures Posed(all, t, j, now[j]) {
      assert Posed(all, s, j, ls[j]);
      FloorsRise(all, s, ls, j, |now|);
      forall i | 0 <= i < |now[j].marks|
        ensures GuardAt(all, t.handlers, t.calls[j].handlerSize, j, t.calls[j].valueSize, now[j].marks, i)
      {
        assert GuardAt(all, s.handlers, s.calls[j].handlerSize, j, s.calls[j].valueSize, ls[j].marks, i);
      }
    }
  }

  lemma OpensSound(all: iset<(nat, Level)>, s: State, ls: seq<Level>, t: State, to: nat)
    requires Sound(all, s, ls) && Opens(s, t, to)
    requires Inside(all, t.pos, Marked(Top(ls))) && Inside(all, to, Marked(Top(ls)))
    ensures Sound(all, t, WithTop(ls, Marked(Top(ls))))
  {
    hide Inside, Spare;
    var top := |ls| - 1;
    var now := ls[top := Marked(ls[top])];
    forall j | 0 <= j < |now| ensures Posed(all, t, j, now[j]) {
      assert Posed(all, s, j, ls[j]);
      forall i | 0 <= i < |now[j].marks|
        ensures GuardAt(all, t.handlers, t.calls[j].handlerSize, j, t.calls[j].valueSize, now[j].marks, i)
      {
        if i < |ls[j].marks| {
          assert GuardAt(all, s.handlers, s.calls[j].handlerSize, j, s.calls[j].valueSize, ls[j].marks, i);
          assert now[j].marks[..i + 1] == ls[j].marks[..i + 1];
        } else {
          assert now[j].marks[..i + 1] == now[j].marks;
        }
      }
    }
  }

  lemma ClosesSound(all: iset<(nat, Level)>, s: State, ls: seq<Level>, t: State)
    requires Sound(all, s, ls) && Closes(s, t) && Top(ls).marks != [] && Inside(all, t.pos, Unmarked(Top(ls)))
    ensures Sound(all, t, WithTop(ls, Unmarked(Top(ls))))
  {
    hide Inside, Spare;
    var top := |ls| - 1;
    var now := ls[top := Unmarked(ls[top])];
    assert Posed(all, s, top, ls[top]);
    forall j | 0 <= j < |now| ensures Posed(all, t, j, now[j]) {
      assert Posed(all, s, j, ls[j]);
      if j < top {
        FloorsRise(all, s, ls, j, top);
      }
      forall i | 0 <= i < |now[j].marks|
        ensures GuardAt(all, t.handlers, t.calls[j].handlerSize, j, t.calls[j].valueSize, now[j].marks, i)
      {
        assert GuardAt(all, s.handlers, s.calls[j].handlerSize, j, s.calls[j].valueSize, ls[j].marks, i);
        assert now[j].marks[..i + 1] == ls[j].marks[..i + 1];
      }
    }
  }

  /** The level at which a process resumes after an error. */
  lemma ResumesSound(all: iset<(nat, Level)>, s: State, ls: seq<Level>, t: State) returns (now: seq<Level>)
    requires Sound(all, s, ls) && Resumes(s, t)
    ensures Sound(all, t, now)
  {
    hide Inside, Spare;
    var last := |s.handlers| - 1;
    var x := Owner(all, s, ls, last, |ls|);
    OwnGuard(all, s, ls, last, x);
    PosedProper(all, s, ls, x);
    assert Posed(all, s, x, ls[x]);
    var marks := ls[x].marks;
    var k := |marks| - 1;
    assert marks[..k + 1] == marks;
    now := ls[..x] + [Level(marks[k], marks)];
    assert |t.calls| == x + 1;
    forall j | 0 <= j < |now| ensures Posed(all, t, j, now[j]) {
      assert Posed(all, s, j, ls[j]);
      assert t.calls[j] == s.calls[j].(locals := t.calls[j].locals);
      assert j < x ==> t.calls[j + 1] == s.calls[j + 1].(locals := t.calls[j + 1].locals);
      forall i | 0 <= i < |now[j].marks|
        ensures GuardAt(all, t.handlers, t.calls[j].handlerSize, j, t.calls[j].valueSize, now[j].marks, i)
      {
        assert GuardAt(all, s.handlers, s.calls[j].handlerSize, j, s.calls[j].valueSize, ls[j].marks, i);
      }
    }
  }

  // ----- every kind of step leaves what is below an open handler alone -----

  /** What handler number `d` was pushed on top of is the same: the values, the activations, and the handlers. */
  ghost predicate Keeps(s: State, t: State, d: int) {
    && 0 <= d < |s.handlers| && d < |t.handlers| && t.handlers[..d + 1] == s.handlers[..d + 1]
    && var h := s.handlers[d];
       && 1 <= h.callSize <= |s.calls| && h.callSize <= |t.calls| && h.valueSize <= |s.values|
       && h.valueSize <= |t.values|
       && t.values[..h.valueSize] == s.values[..h.valueSize]
       && SameFrames(s.calls[..h.callSize], t.calls[..h.callSize])
  }

  ghost predicate KeepsAll(s: State, t: State) {
    forall d :: 0 <= d < |s.handlers| && d < |t.handlers| ==> Keeps(s, t, d)
  }

  lemma MovesKeeps(all: iset<(nat, Level)>, s: State, ls: seq<Level>, t: State, n: nat, k: nat)
    requires Sound(all, s, ls) && Moves(s, t, n, k) && n <= Spare(Top(ls))
    ensures KeepsAll(s, t)
  {
    hide Sound, Spare;
    forall d | 0 <= d < |s.handlers| && d < |t.handlers| ensures Keeps(s, t, d) {
      HandlerBelow(all, s, ls, d);
      var m := |s.values| - n;
      var v := s.handlers[d].valueSize;
      assert t.values[..v] == t.values[..m][..v] == s.values[..m][..v] == s.values[..v];
      SameShorter(s.calls, t.calls, s.handlers[d].callSize);
    }
  }

  lemma EntersKeeps(all: iset<(nat, Level)>, s: State, ls: seq<Level>, t: State, n: nat, aft: nat)
    requires Sound(all, s, ls) && Enters(s, t, n, aft) && n <= Spare(Top(ls))
    ensures KeepsAll(s, t)
  {
    hide Sound, Spare;
    forall d | 0 <= d < |s.handlers| && d < |t.handlers| ensures Keeps(s, t, d) {
      HandlerBelow(all, s, ls, d);
      var c := s.handlers[d].callSize;
      assert t.calls[..c] == t.calls[..|s.calls|][..c] == s.calls[..c];
    }
  }

  lemma EndsKeeps(all: iset<(nat, Level)>, s: State, ls: seq<Level>, t: State)
    requires Sound(all, s, ls) && Ends(s, t)
    ensures KeepsAll(s, t)
  {
    hide Sound, Spare;
    forall d | 0 <= d < |s.handlers| && d < |t.handlers| ensures Keeps(s, t, d) {
      HandlerBelow(all, s, ls, d);
      var h, floor := s.handlers[d], s.calls[|s.calls| - 1].valueSize;
      assert t.calls[..h.callSize] == s.calls[..h.callSize];
      assert t.values[..h.valueSize] == t.values[..floor][..h.valueSize] == s.values[..floor][..h.valueSize]
             == s.values[..h.valueSize];
    }
  }

  lemma GuardsKeep(all: iset<(nat, Level)>, s: State, ls: seq<Level>, t: State, to: nat)
    requires Sound(all, s, ls) && (Opens(s, t, to) || Closes(s, t))
    ensures KeepsAll(s, t)
  {
    hide Sound, Spare;
    forall d | 0 <= d < |s.handlers| && d < |t.handlers| ensures Keeps(s, t, d) {
      HandlerBelow(all, s, ls, d);
    }
  }

  lemma ResumesKeeps(all: iset<(nat, Level)>, s: State, ls: seq<Level>, t: State)
    requires Sound(all, s, ls) && Resumes(s, t)
    ensures KeepsAll(s, t)
  {
    hide Sound, Spare;
    forall d | 0 <= d < |s.handlers| && d < |t.handlers| ensures Keeps(s, t, d) {
      HandlerBelow(all, s, ls, d);
      HandlersOrdered(all, s, ls, d, |s.handlers| - 1);
      var c, m := s.handlers[d].callSize, s.handlers[|s.handlers| - 1].callSize;
      assert s.calls[..c] == s.calls[..m][..c];
      SameShorter(s.calls[..m], t.calls, c);
    }
  }

  lemma SameShorter(a: seq<Frame>, b: seq<Frame>, c: nat)
    requires SameFrames(a, b) && 1 <= c <= |a|
    ensures SameFrames(a[..c], b[..c])
  {
    if c < |a| {
      assert a[..c] == a[..|a| - 1][..c] == b[..|a| - 1][..c] == b[..c];
    } else {
      assert a[..c] == a && b[..c] == b;
    }
  }

  // ----- which kind of step an instruction makes -----

  /** A failed instruction has at most taken values. */
  ghost predicate Cut(s: State, u: State) {
    u.calls == s.calls && u.handlers == s.handlers && u.closures == s.closures && u.values <= s.values
  }

  /** An instruction at most takes `n` values and leaves `k`, and goes on. */
  ghost predicate Shifts(s: State, o: Outcome, aft: int, n: nat, k: nat) {
    match o
    case Went(t) => t.pos == aft && t.closures == s.closures && Moves(s, t, n, k)
    case Failed(_, u) => Cut(s, u)
    case _ => true
  }

  lemma StackMoves(w: World, ins: Instruction, aft: nat, s: State, n: nat, k: nat)
    requires s.calls != [] && (ins.DupeValue? || ins.SwapValues? || Arity(ins).Some?) && Effect(ins) == Some((n, k))
    ensures Shifts(s, ExecStack(w, ins, aft, s), aft, n, k)
  {
    hide Prim, Arity;
    if Arity(ins).Some? && n <= |s.values| && !ins.DupeValue? && !ins.SwapValues? {
      PrimLeaves(w, ins, s.values[|s.values| - n..], s.heap);
    }
  }

  lemma TurnMoves(ins: Instruction, aft: nat, s: State)
    requires s.calls != [] && (ins.Yield? || ins.WarpStart? || ins.WarpStop?)
    ensures !ExecJump(ins, aft, s).Failed? && Shifts(s, ExecJump(ins, aft, s), aft, 0, 0)
  {
  }

  lemma VariableMoves(w: World, outer: Locals, ins: Instruction, aft: nat, s: State, n: nat, k: nat)
    requires s.calls != [] && Effect(ins) == Some((n, k))
    requires ins.PushVariable? || ins.DeclareLocal? || ins.InitUpvar? || ins.Assign? || ins.BinaryOpAssign?
    ensures Shifts(s, ExecVariable(w, outer, ins, aft, s), aft, n, k)
  {
    hide BinaryOn, InitUpvarCell, Lookup, SetCell, TopLocals, Define, Cell;
  }

  /** The process goes on with its activations sound, and what is below its handlers untouched. */
  ghost predicate Advances(all: iset<(nat, Level)>, s: State, t: State) {
    KeepsAll(s, t) && exists now :: Sound(all, t, now)
  }

  ghost predicate Fares(all: iset<(nat, Level)>, s: State, o: Outcome) {
    match o case Went(t) => Advances(all, s, t) case Failed(_, u) => Cut(s, u) case _ => true
  }

  lemma MovesFares(all: iset<(nat, Level)>, s: State, ls: seq<Level>, t: State, n: nat, k: nat)
    requires Sound(all, s, ls) && Moves(s, t, n, k) && t.closures == s.closures
    requires n <= Spare(Top(ls)) && Inside(all, t.pos, Shifted(Top(ls), n, k))
    ensures Advances(all, s, t)
  {
    hide Inside, Spare, KeepsAll, Moves, Posed;
    MovesKeeps(all, s, ls, t, n, k);
    MovesSound(all, s, ls, t, n, k);
  }

  lemma EffectMoves(w: World, outer: Locals, ins: Instruction, aft: nat, s: State, n: nat, k: nat)
    requires s.calls != [] && Effect(ins) == Some((n, k)) && !ins.CallClosure?
    ensures Shifts(s, Exec(w, outer, ins, aft, s), aft, n, k)
  {
    hide ExecStack, ExecJump, ExecVariable, ExecCall, Arity, Moves, Cut;
    if ins.DupeValue? || ins.SwapValues? || Arity(ins).Some? {
      StackMoves(w, ins, aft, s, n, k);
    } else if ins.Yield? || ins.WarpStart? || ins.WarpStop? {
      TurnMoves(ins, aft, s);
    } else {
      VariableMoves(w, outer, ins, aft, s, n, k);
    }
  }

  lemma EffectFares(I: Image, all: iset<(nat, Level)>, s: State, ls: seq<Level>, ins: Instruction)
    requires Governs(I, all)
    requires Sound(all, s, ls) && Effect(ins).Some? && !ins.CallClosure? && GoesOn(ins, s.pos, Top(ls), all)
    ensures Fares(all, s, Does(I, s, ins))
  {
    hide Sound, Exec, Effect, Spare, Advances, Moves, Cut, Inside, Governs;
    Members(I, all);
    SoundCalls(all, s, ls);
    EffectOnly(ins);
    var e := Effect(ins).value;
    var o := Exec(I.p.w, I.p.outer, ins, s.pos + 1, s);
    EffectMoves(I.p.w, I.p.outer, ins, s.pos + 1, s, e.0, e.1);
    if o.Went? {
      MovesFares(all, s, ls, o.s, e.0, e.1);
    }
  }

  lemma SoundCalls(all: iset<(nat, Level)>, s: State, ls: seq<Level>)
    requires Sound(all, s, ls)
    ensures s.calls != [] && |ls| == |s.calls|
  {
    hide Posed, Inside;
  }

  lemma JumpMoves(ins: Instruction, aft: nat, s: State)
    requires s.calls != [] && (ins.Jump? || ins.ConditionalJump? || ins.ListPopFirstOrElse?)
    ensures var o := ExecJump(ins, aft, s);
            || (ins.Jump? && Shifts(s, o, ins.to, 0, 0))
            || (ins.ConditionalJump? && (Shifts(s, o, ins.to, 1, 0) || Shifts(s, o, aft, 1, 0)))
            || (ins.ListPopFirstOrElse? && (Shifts(s, o, ins.goto, 1, 0) || Shifts(s, o, aft, 1, 1)))
  {
    hide Items, SetItems;
  }

  lemma ExecIsJump(w: World, outer: Locals, ins: Instruction, aft: nat, s: State)
    requires s.calls != [] && (ins.Jump? || ins.ConditionalJump? || ins.ListPopFirstOrElse?)
    ensures Exec(w, outer, ins, aft, s) == ExecJump(ins, aft, s)
  {
    hide ExecStack, ExecJump, ExecVariable, ExecCall;
  }

  lemma ShiftSame(l: Level, n: nat)
    requires n <= Spare(l)
    ensures Shifted(l, n, n) == l
  {
  }

  lemma JumpFares(I: Image, all: iset<(nat, Level)>, s: State, ls: seq<Level>, ins: Instruction)
    requires Governs(I, all)
    requires Sound(all, s, ls) && (ins.Jump? || ins.ConditionalJump? || ins.ListPopFirstOrElse?)
    requires GoesOn(ins, s.pos, Top(ls), all)
    ensures Fares(all, s, Does(I, s, ins))
  {
    hide Sound, Exec, ExecJump, Effect, Spare, Advances, Moves, Cut, Inside, Governs;
    Members(I, all);
    SoundCalls(all, s, ls);
    var l := ls[|ls| - 1];
    PosedProper(all, s, ls, |ls| - 1);
    ShiftSame(l, 0);
    ExecIsJump(I.p.w, I.p.outer, ins, s.pos + 1, s);
    JumpMoves(ins, s.pos + 1, s);
    var o := ExecJump(ins, s.pos + 1, s);
    if o.Went? {
      if ins.Jump? {
        MovesFares(all, s, ls, o.s, 0, 0);
      } else if ins.ConditionalJump? {
        MovesFares(all, s, ls, o.s, 1, 0);
      } else if Shifts(s, o, ins.goto, 1, 0) {
        MovesFares(all, s, ls, o.s, 1, 0);
      } else {
        ShiftSame(l, 1);
        MovesFares(all, s, ls, o.s, 1, 1);
      }
    }
  }

  lemma GuardMoves(w: World, outer: Locals, ins: Instruction, aft: nat, s: State)
    requires s.calls != [] && (ins.PushHandler? || ins.PopHandler?)
    ensures match ExecCall(w, outer, ins, aft, s)
            case Went(t) =>
              t.pos == aft && (if ins.PushHandler? then Opens(s, t, ins.pos) else Closes(s, t))
            case o => !o.Failed?
  {
    hide Lookup;
  }

  lemma GuardFares(I: Image, all: iset<(nat, Level)>, s: State, ls: seq<Level>, ins: Instruction)
    requires Governs(I, all)
    requires Sound(all, s, ls) && (ins.PushHandler? || ins.PopHandler?) && GoesOn(ins, s.pos, Top(ls), all)
    ensures Fares(all, s, Does(I, s, ins))
  {
    hide Sound, Exec, ExecCall, Effect, Spare, KeepsAll, Opens, Closes, Cut, Inside, Governs;
    Members(I, all);
    SoundCalls(all, s, ls);
    ExecIsCall(I, s, ins);
    GuardMoves(I.p.w, I.p.outer, ins, s.pos + 1, s);
    var o := ExecCall(I.p.w, I.p.outer, ins, s.pos + 1, s);
    if o.Went? {
      GuardsKeep(all, s, ls, o.s, if ins.PushHandler? then ins.pos else 0);
      if ins.PushHandler? {
        OpensSound(all, s, ls, o.s, ins.pos);
      } else {
        ClosesSound(all, s, ls, o.s);
      }
    }
  }

  lemma ReturnEnds(w: World, outer: Locals, aft: nat, s: State)
    requires s.calls != []
    ensures match ExecCall(w, outer, Return, aft, s) case Went(t) => Ends(s, t) case o => !o.Failed?
  {
  }

  lemma ReturnFares(I: Image, all: iset<(nat, Level)>, s: State, ls: seq<Level>)
    requires Sound(all, s, ls)
    ensures Fares(all, s, Does(I, s, Return))
  {
    hide Sound, Exec, ExecCall, Effect, Spare, KeepsAll, Ends, Cut, Inside;
    SoundCalls(all, s, ls);
    ExecIsCall(I, s, Return);
    ReturnEnds(I.p.w, I.p.outer, s.pos + 1, s);
    var o := ExecCall(I.p.w, I.p.outer, Return, s.pos + 1, s);
    if o.Went? {
      EndsKeeps(all, s, ls, o.s);
      EndsSound(all, s, ls, o.s);
    }
  }

  lemma EntersFares(all: iset<(nat, Level)>, s: State, ls: seq<Level>, t: State, n: nat, aft: nat)
    requires Sound(all, s, ls) && Enters(s, t, n, aft) && Inside(all, t.pos, GROUND)
    requires n <= Spare(Top(ls)) && Inside(all, aft, Shifted(Top(ls), n, 1))
    ensures Advances(all, s, t)
  {
    hide Sound, Spare, Enters, Inside, KeepsAll;
    SoundCalls(all, s, ls);
    EntersKeeps(all, s, ls, t, n, aft);
    EntersSound(all, s, ls, t, n, aft);
    var now := ls[|ls| - 1 := Shifted(ls[|ls| - 1], n, 1)] + [GROUND];
    assert Sound(all, t, now);
  }

  ghost predicate OfClosure(s: State, pos: nat) {
    exists i :: 0 <= i < |s.closures| && pos == s.closures[i].code
  }

  lemma ClosureEnters(w: World, outer: Locals, aft: nat, s: State, n: nat)
    requires s.calls != []
    ensures match ExecCall(w, outer, CallClosure(false, n), aft, s)
            case Went(t) => Enters(s, t, n + 1, aft) && OfClosure(s, t.pos)
            case Failed(_, u) => Cut(s, u)
            case _ => true
  {
    hide DefineAll;
    var o := ExecCall(w, outer, CallClosure(false, n), aft, s);
    if o.Went? {
      var f := s.values[|s.values| - (n + 1)];
      assert o.s.pos == s.closures[f.id].code;
    }
  }

  lemma ApplyFares(I: Image, all: iset<(nat, Level)>, s: State, ls: seq<Level>, ins: Instruction)
    requires Governs(I, all)
    requires Sound(all, s, ls) && ins.CallClosure? && GoesOn(ins, s.pos, Top(ls), all)
    ensures Fares(all, s, Does(I, s, ins))
  {
    hide Exec, ExecCall, Spare, Advances, Enters, Cut, Inside, Posed, Governs;
    Members(I, all);
    ExecIsCall(I, s, ins);
    if ins.newEntity {
      NoEntity(I.p.w, I.p.outer, ins, s.pos + 1, s);
    } else {
      ClosureEnters(I.p.w, I.p.outer, s.pos + 1, s, ins.args);
      var o := ExecCall(I.p.w, I.p.outer, ins, s.pos + 1, s);
      if o.Went? {
        EntersFares(all, s, ls, o.s, ins.args + 1, s.pos + 1);
      }
    }
  }

  lemma NoEntity(w: World, outer: Locals, ins: Instruction, aft: nat, s: State)
    requires s.calls != [] && ins.CallClosure? && ins.newEntity
    ensures ExecCall(w, outer, ins, aft, s) == Stuck
  {
  }

  ghost predicate EntersAt(s: State, o: Outcome, to: nat, n: int, aft: nat) {
    match o case Went(t) => t.pos == to && Enters(s, t, n, aft) case Failed(_, u) => Cut(s, u) case _ => true
  }

  lemma TokensEnter(w: World, outer: Locals, to: nat, tokens: Str, n: int, aft: nat, s: State)
    requires |LosslessSplit(tokens)| == n
    ensures EntersAt(s, ExecCall(w, outer, Call(to, tokens), aft, s), to, n, aft)
  {
    hide DefineAll, LosslessSplit, Capture, ExecReturn, TopLocals;
  }

  lemma CallEnters(w: World, outer: Locals, to: nat, params: seq<Str>, aft: nat, s: State)
    requires NulFree(params)
    ensures EntersAt(s, ExecCall(w, outer, Call(to, LosslessJoin(params)), aft, s), to, |params|, aft)
  {
    hide *;
    JoinRoundTrip(params);
    TokensEnter(w, outer, to, LosslessJoin(params), |params|, aft, s);
  }
  function SlotOf(I: Image, pos: nat): Slot {
    if pos < |I.slots| then I.slots[pos] else Pending
  }

  function InsOf(I: Image, pos: nat): Instruction {
    if pos < |I.ins| then I.ins[pos] else PopValue
  }

  ghost predicate FlowsAt(I: Image, pos: nat, l: Level, all: iset<(nat, Level)>) {
    pos < |I.slots| && Flows(I.p.fns, I.slots[pos], pos, l, all)
  }

  lemma HoleFares(I: Image, all: iset<(nat, Level)>, s: State, ls: seq<Level>)
    requires Governs(I, all)
    requires Sound(all, s, ls) && Filled(I) && SlotOf(I, s.pos).CallHole? && FlowsAt(I, s.pos, Top(ls), all)
    ensures Fares(all, s, Does(I, s, InsOf(I, s.pos)))
  {
    hide Sound, Exec, ExecCall, Effect, Spare, Advances, Enters, Cut, Inside, Filled, BodyAt, LosslessJoin, NulFree;
    hide ResolveKey, Governs;
    Members(I, all);
    SoundCalls(all, s, ls);
    var hole := I.slots[s.pos];
    CallTarget(I, s.pos, hole.name, hole.ent);
    var k := ResolveKey(I.p.fns, hole.ent, hole.name).value;
    var fn := I.p.fns[k];
    ExecIsCall(I, s, I.ins[s.pos]);
    CallEnters(I.p.w, I.p.outer, I.fnEntry[k], fn.params, s.pos + 1, s);
    BlockGoverned(I, all, k);
    var o := ExecCall(I.p.w, I.p.outer, I.ins[s.pos], s.pos + 1, s);
    if o.Went? {
      EntersFares(all, s, ls, o.s, |fn.params|, s.pos + 1);
    }
  }

  ghost predicate Grounded(I: Image, k: (Option<nat>, Str), all: iset<(nat, Level)>) {
    k in I.fnEntry && (I.fnEntry[k], GROUND) in all
  }

  lemma BlockGoverned(I: Image, all: iset<(nat, Level)>, k: (Option<nat>, Str))
    requires Governs(I, all) && k in I.p.fns && k in I.fnEntry
    ensures Grounded(I, k, all)
  {
    hide Flows, Proper;
  }

  lemma ClosureTarget(I: Image, all: iset<(nat, Level)>, pos: nat)
    requires Filled(I) && Governs(I, all) && SlotOf(I, pos).ClosureHole?
    ensures pos < |I.ins| && InsOf(I, pos).MakeClosure? && (InsOf(I, pos).pos, GROUND) in all
  {
    hide BodyAt, Flows, Proper;
    assert FilledAt(I, pos);
  }

  /** One closure more, of the code that the instruction names. */
  predicate Makes(s: State, t: State, ins: Instruction) {
    |t.closures| == |s.closures| + 1 && ins.MakeClosure? && t.closures[|s.closures|].code == ins.pos
  }

  lemma ClosureMoves(w: World, outer: Locals, ins: Instruction, aft: nat, s: State)
    requires s.calls != [] && ins.MakeClosure?
    ensures match ExecCall(w, outer, ins, aft, s)
            case Went(t) => t.pos == aft && Moves(s, t, 0, 1) && Makes(s, t, ins)
            case Failed(_, u) => Cut(s, u)
            case _ => true
  {
    hide Capture, LosslessSplit;
  }

  lemma LambdaFares(I: Image, all: iset<(nat, Level)>, s: State, ls: seq<Level>)
    requires Governs(I, all)
    requires Sound(all, s, ls) && Filled(I) && SlotOf(I, s.pos).ClosureHole? && FlowsAt(I, s.pos, Top(ls), all)
    ensures Fares(all, s, Does(I, s, InsOf(I, s.pos)))
  {
    hide Exec, ExecCall, Effect, Spare, Cut, Inside, Filled, BodyAt, Posed, KeepsAll, Governs;
    Members(I, all);
    SoundCalls(all, s, ls);
    var top := |ls| - 1;
    PosedProper(all, s, ls, top);
    ClosureTarget(I, all, s.pos);
    ExecIsCall(I, s, I.ins[s.pos]);
    ClosureMoves(I.p.w, I.p.outer, I.ins[s.pos], s.pos + 1, s);
    var o := ExecCall(I.p.w, I.p.outer, I.ins[s.pos], s.pos + 1, s);
    if o.Went? {
      assert Up(ls[top], 1) == Shifted(ls[top], 0, 1);
      MovesKeeps(all, s, ls, o.s, 0, 1);
      MovesSound(all, s, ls, o.s, 0, 1);
    }
  }

  lemma SlotFares(I: Image, all: iset<(nat, Level)>, s: State, ls: seq<Level>)
    requires Governs(I, all)
    requires Sound(all, s, ls) && Filled(I)
    ensures Fares(all, s, StepImpl(I.M(), s))
  {
    hide Sound, Exec, Effect, Fares, Inside, BodyAt, Flows, GoesOn, Is, Governs, Build, FilledAt;
    SoundCalls(all, s, ls);
    var l := ls[|ls| - 1];
    TopInside(all, s, ls);
    InsideFlows(I, all, s.pos, l);
    FilledSize(I);
    match I.slots[s.pos] {
      case Pending => NeverPending(I, all, s.pos, l);
      case CallHole(_, _) => HoleFares(I, all, s, ls);
      case ClosureHole(_, _, _, _) => LambdaFares(I, all, s, ls);
      case Ins(ins) =>
        FlowsGoes(I, all, s.pos, l);
        FilledIns(I, s.pos);
        InsFares(I, all, s, ls, ins);
    }
  }

  lemma TopInside(all: iset<(nat, Level)>, s: State, ls: seq<Level>)
    requires Sound(all, s, ls)
    ensures ls != [] && Inside(all, s.pos, Top(ls))
  {
    hide Inside;
    assert Posed(all, s, |ls| - 1, ls[|ls| - 1]);
  }

  lemma NeverPending(I: Image, all: iset<(nat, Level)>, pos: nat, l: Level)
    requires FlowsAt(I, pos, l, all)
    ensures !SlotOf(I, pos).Pending?
  {
    hide GoesOn, Spare, Resolve;
  }

  lemma FlowsGoes(I: Image, all: iset<(nat, Level)>, pos: nat, l: Level)
    requires FlowsAt(I, pos, l, all)
    ensures match SlotOf(I, pos) case Ins(ins) => GoesOn(ins, pos, l, all) case _ => true
  {
    hide GoesOn, Spare, Resolve;
  }

  lemma FilledSize(I: Image)
    requires Filled(I)
    ensures |I.ins| == |I.slots|
  {
    hide BodyAt, FilledAt;
  }

  lemma FilledIns(I: Image, pos: nat)
    requires Filled(I)
    ensures match SlotOf(I, pos) case Ins(ins) => InsOf(I, pos) == ins case _ => true
  {
    hide BodyAt;
    if pos < |I.slots| {
      assert FilledAt(I, pos);
    }
  }

  lemma InsFares(I: Image, all: iset<(nat, Level)>, s: State, ls: seq<Level>, ins: Instruction)
    requires Governs(I, all)
    requires Sound(all, s, ls) && GoesOn(ins, s.pos, Top(ls), all)
    ensures Fares(all, s, Does(I, s, ins))
  {
    hide Sound, Exec, Effect, Fares, Inside, GoesOn, Spare, Governs;
    SoundCalls(all, s, ls);
    if ins.Jump? || ins.ConditionalJump? || ins.ListPopFirstOrElse? {
      JumpFares(I, all, s, ls, ins);
    } else if ins.PushHandler? || ins.PopHandler? {
      GuardFares(I, all, s, ls, ins);
    } else if ins.Return? {
      ReturnFares(I, all, s, ls);
    } else if ins.CallClosure? {
      ApplyFares(I, all, s, ls, ins);
    } else {
      PlainGoes(ins, s.pos, ls[|ls| - 1], all);
      EffectFares(I, all, s, ls, ins);
    }
  }

  lemma PlainGoes(ins: Instruction, pos: nat, l: Level, all: iset<(nat, Level)>)
    requires GoesOn(ins, pos, l, all)
    requires !ins.Jump? && !ins.ConditionalJump? && !ins.ListPopFirstOrElse? && !ins.PushHandler? && !ins.PopHandler?
             && !ins.Return?
    ensures Effect(ins).Some?
  {
    hide Effect, Spare;
  }

  // ----- errors -----

  lemma UnwindResumes(w: World, err: Error, s: State, u: State)
    requires Cut(s, u) && s.calls != []
    ensures match Unwind(w, err, u) case Went(t) => Resumes(s, t) case _ => true
  {
    hide Message;
    var o := Unwind(w, err, u);
    if o.Went? {
      var h := s.handlers[|s.handlers| - 1];
      assert u.values == s.values[..|u.values|];
      assert u.values[..h.valueSize] == s.values[..h.valueSize];
    }
  }

  /** A step keeps every activation at a level its code fixes, and what is below the open handlers untouched. */
  lemma StepAdvances(I: Image, all: iset<(nat, Level)>, s: State, ls: seq<Level>)
    requires Governs(I, all)
    requires Sound(all, s, ls) && Filled(I)
    ensures match Step(I.M(), s) case Went(t) => Advances(all, s, t) case _ => true
  {
    hide Sound, Filled, StepImpl, Unwind, Cut, Resumes, KeepsAll, Governs;
    SoundCalls(all, s, ls);
    SlotFares(I, all, s, ls);
    var o := StepImpl(I.M(), s);
    if o.Failed? && Step(I.M(), s).Went? {
      UnwindResumes(I.p.w, o.err, s, o.s);
      var t := Step(I.M(), s).s;
      var now := ResumesSound(all, s, ls, t);
      ResumesKeeps(all, s, ls, t);
    }
  }

  // ----- whole runs -----

  /** A process may start from here: its body, and the closures it is given, are among those that `all` governs. */
  ghost predicate Starts(all: iset<(nat, Level)>, x: Compiled.Script, z: Setup) {
    (x.entry, GROUND) in all && forall i :: 0 <= i < |z.clo| ==> (z.clo[i].code, GROUND) in all
  }

  lemma BeginSound(I: Image, all: iset<(nat, Level)>, x: Compiled.Script, z: Setup)
    requires Governs(I, all) && Starts(all, x, z)
    ensures Sound(all, Begin(x, z), [GROUND])
  {
    hide Governs, Inside;
    Members(I, all);
    assert Posed(all, Begin(x, z), 0, GROUND);
  }

  lemma {:induction false} RunSound(I: Image, all: iset<(nat, Level)>, s: State, ls: seq<Level>, n: nat, t: State)
      returns (now: seq<Level>)
    requires Governs(I, all)
    requires Sound(all, s, ls) && Filled(I) && Run(I.M(), s, n) == Some(t)
    ensures Sound(all, t, now)
    decreases n
  {
    hide Sound, Filled, Step, KeepsAll, Governs;
    if n == 0 {
      now := ls;
    } else {
      StepAdvances(I, all, s, ls);
      var u := Step(I.M(), s).s;
      var next :| Sound(all, u, next);
      now := RunSound(I, all, u, next, n - 1, t);
    }
  }

  /** Handlers lie within the stacks, and in their order. */
  ghost predicate InOrder(s: State) {
    && (forall i :: 0 <= i < |s.handlers| ==>
          1 <= s.handlers[i].callSize <= |s.calls| && s.handlers[i].valueSize <= |s.values|)
    && forall i, k :: 0 <= i < k < |s.handlers| ==>
         s.handlers[i].callSize <= s.handlers[k].callSize && s.handlers[i].valueSize <= s.handlers[k].valueSize
  }

  /** The running activation has the values and the handlers of a level at the instruction it is at. */
  ghost predicate AtLevel(all: iset<(nat, Level)>, s: State) {
    && s.calls != []
    && exists l :: (s.pos, l) in all && |s.values| == s.calls[|s.calls| - 1].valueSize + l.height
                   && |s.handlers| == s.calls[|s.calls| - 1].handlerSize + |l.marks|
  }

  /** In every state that a process reaches, the running activation is at a level that governs the code, and the sizes
      that handlers were pushed with are in bounds and in order. */
  lemma AlwaysDisciplined(I: Image, all: iset<(nat, Level)>, x: Compiled.Script, z: Setup, n: nat)
    requires Filled(I) && Governs(I, all) && Starts(all, x, z)
    ensures match Run(I.M(), Begin(x, z), n) case Some(s) => AtLevel(all, s) && InOrder(s) case None => true
  {
    hide Begin, Run, Filled, Governs, Starts, Proper;
    if Run(I.M(), Begin(x, z), n).None? {
      return;
    }
    BeginSound(I, all, x, z);
    var s := Run(I.M(), Begin(x, z), n).value;
    var ls := RunSound(I, all, Begin(x, z), [GROUND], n, s);
    assert Posed(all, s, |ls| - 1, ls[|ls| - 1]);
    hide Sound;
    forall i | 0 <= i < |s.handlers|
      ensures 1 <= s.handlers[i].callSize <= |s.calls| && s.handlers[i].valueSize <= |s.values|
    {
      HandlerBelow(all, s, ls, i);
    }
    forall i, k | 0 <= i < k < |s.handlers|
      ensures s.handlers[i].callSize <= s.handlers[k].callSize && s.handlers[i].valueSize <= s.handlers[k].valueSize
    {
      HandlersOrdered(all, s, ls, i, k);
    }
  }

  /** The running activation has the values and the handlers of the level of its instruction. */
  ghost predicate StandsAt(levels: seq<Level>, s: State) {
    && s.calls != [] && s.pos < |levels|
    && |s.values| == s.calls[|s.calls| - 1].valueSize + levels[s.pos].height
    && |s.handlers| == s.calls[|s.calls| - 1].handlerSize + |levels[s.pos].marks|
  }

  /** In compiled code every instruction has one level: whenever a process is at it, the running activation has that
      many values above its floor, and that many open handlers. */
  lemma OneLevel(I: Image, levels: seq<Level>, x: Compiled.Script, z: Setup, n: nat)
    requires Filled(I) && Governs(I, Cells(levels, 0)) && Starts(Cells(levels, 0), x, z)
    ensures match Run(I.M(), Begin(x, z), n) case Some(s) => StandsAt(levels, s) case None => true
  {
    hide Begin, Run, Filled, Governs, Starts, InOrder;
    AlwaysDisciplined(I, Cells(levels, 0), x, z, n);
  }

  // ----- the levels of any program whose bodies are laid out -----

  /** A body of a program, and where it stands. */
  datatype Place = Place(ent: Option<nat>, upvars: seq<Str>, body: seq<Stmt>, entry: nat)

  ghost predicate Located(I: Image, x: Place, pos: nat, l: Level) {
    && BodyAt(Scope(I.p.fns, x.ent), I.slots, x.upvars, x.body, x.entry)
    && (pos, l) in Cells(BodyLevels(x.upvars, x.body), x.entry)
  }

  /** The levels of all bodies. */
  ghost function Everywhere(I: Image): iset<(nat, Level)> {
    iset x: Place, pos: nat, l: Level | Located(I, x, pos, l) :: (pos, l)
  }

  lemma PlaceGoverned(I: Image, x: Place, pos: nat, l: Level)
    requires Located(I, x, pos, l)
    ensures Proper(l) && FlowsAt(I, pos, l, Everywhere(I))
  {
    hide Proper, Flows, BodyAt, BodyLevels;
    var ls := BodyLevels(x.upvars, x.body);
    BodySteady(Scope(I.p.fns, x.ent), I.slots, x.upvars, x.body, x.entry);
    assert Stays(I.p.fns, I.slots, ls, x.entry, pos, Cells(ls, x.entry));
    forall q: nat, k: Level | (q, k) in Cells(ls, x.entry) ensures (q, k) in Everywhere(I) {
      assert Located(I, x, q, k);
    }
    FlowsMore(I.p.fns, I.slots[pos], pos, l, Cells(ls, x.entry), Everywhere(I));
  }

  lemma EntryGoverned(I: Image, x: Place)
    requires BodyAt(Scope(I.p.fns, x.ent), I.slots, x.upvars, x.body, x.entry)
    ensures (x.entry, GROUND) in Everywhere(I)
  {
    hide BodyAt, BodyLevels, Stays;
    BodySteady(Scope(I.p.fns, x.ent), I.slots, x.upvars, x.body, x.entry);
    InCells(BodyLevels(x.upvars, x.body), x.entry, 0);
    assert Located(I, x, x.entry, GROUND);
  }

  lemma LoadedGoverned(I: Image, x: Compiled.Script, z: Setup)
    requires Loaded(I, x, z)
    ensures Filled(I) && Governs(I, Everywhere(I)) && Starts(Everywhere(I), x, z)
  {
    hide BodyAt, FilledAt, Located, Proper, Flows;
    FilledGoverned(I);
    EntryGoverned(I, Place(x.ent, [], x.body, x.entry));
    forall i | 0 <= i < |z.clo| ensures (z.clo[i].code, GROUND) in Everywhere(I) {
      EntryGoverned(I, Place(z.src[i].code.ent, [], z.src[i].code.body, z.clo[i].code));
    }
  }

  lemma FilledGoverned(I: Image)
    requires Filled(I)
    ensures Governs(I, Everywhere(I))
  {
    hide BodyAt, Located, Proper, Flows;
    var all := Everywhere(I);
    forall pos, l | (pos, l) in all ensures pos < |I.slots| && Proper(l) && Flows(I.p.fns, I.slots[pos], pos, l, all) {
      var x :| Located(I, x, pos, l);
      PlaceGoverned(I, x, pos, l);
    }
    forall k | k in I.p.fns && k in I.fnEntry ensures (I.fnEntry[k], GROUND) in all {
      var fn := I.p.fns[k];
      EntryGoverned(I, Place(fn.ent, fn.upvars, fn.body, I.fnEntry[k]));
    }
    forall pos | 0 <= pos < |I.slots| && I.slots[pos].ClosureHole? && pos in I.bodyEntry
      ensures (I.bodyEntry[pos], GROUND) in all
    {
      assert FilledAt(I, pos);
      var h := I.slots[pos];
      EntryGoverned(I, Place(h.ent, [], h.body, I.bodyEntry[pos]));
    }
  }

  // ----- a handler finds what it was pushed on -----

  ghost predicate OpenAfter(m: Machine, s: State, n: int, d: int) {
    match Run(m, s, n) case Some(t) => d < |t.handlers| case None => false
  }

  /** For `n` steps, handler `d` is not popped. */
  ghost predicate StaysOpen(m: Machine, s: State, n: int, d: int) {
    forall i :: 0 <= i <= n ==> OpenAfter(m, s, i, d)
  }

  lemma SameTwice(a: seq<Frame>, b: seq<Frame>, c: seq<Frame>)
    requires SameFrames(a, b) && SameFrames(b, c)
    ensures SameFrames(a, c)
  {
  }

  lemma KeepsTwice(s: State, t: State, u: State, d: nat)
    requires Keeps(s, t, d) && Keeps(t, u, d)
    ensures Keeps(s, u, d)
  {
    hide SameFrames;
    assert t.handlers[d] == t.handlers[..d + 1][d] == s.handlers[..d + 1][d] == s.handlers[d];
    var c := s.handlers[d].callSize;
    SameTwice(s.calls[..c], t.calls[..c], u.calls[..c]);
  }

  lemma StaysNow(m: Machine, s: State, n: nat, d: nat)
    requires StaysOpen(m, s, n, d)
    ensures d < |s.handlers| && OpenAfter(m, s, n, d)
  {
    hide Step;
    assert OpenAfter(m, s, 0, d);
  }

  lemma StaysNext(m: Machine, s: State, n: nat, d: nat)
    requires StaysOpen(m, s, n, d) && n > 0
    ensures match Step(m, s)
            case Went(t) => StaysOpen(m, t, n - 1, d) && Run(m, s, n) == Run(m, t, n - 1)
            case _ => false
  {
    hide Step;
    assert OpenAfter(m, s, 1, d);
    var t := Step(m, s).s;
    forall i | 0 <= i <= n - 1 ensures OpenAfter(m, t, i, d) {
      assert Run(m, s, i + 1) == Run(m, t, i);
      assert OpenAfter(m, s, i + 1, d);
    }
  }

  lemma KeepsNothing(all: iset<(nat, Level)>, s: State, ls: seq<Level>, d: nat)
    requires Sound(all, s, ls) && d < |s.handlers|
    ensures Keeps(s, s, d)
  {
    hide Sound, Spare;
    HandlerBelow(all, s, ls, d);
  }

  lemma {:induction false} RunKeeps(I: Image, all: iset<(nat, Level)>, s: State, ls: seq<Level>, n: nat, d: nat)
    requires Governs(I, all)
    requires Sound(all, s, ls) && Filled(I) && StaysOpen(I.M(), s, n, d)
    ensures match Run(I.M(), s, n) case Some(t) => Keeps(s, t, d) case None => false
    decreases n
  {
    hide Sound, Filled, Step, Keeps, StaysOpen, Governs;
    StaysNow(I.M(), s, n, d);
    if n == 0 {
      KeepsNothing(all, s, ls, d);
    } else {
      StaysNext(I.M(), s, n, d);
      StepAdvances(I, all, s, ls);
      var t := Step(I.M(), s).s;
      var next :| Sound(all, t, next);
      StaysNow(I.M(), t, n - 1, d);
      RunKeeps(I, all, t, next, n - 1, d);
      KeepsTwice(s, t, Run(I.M(), s, n).value, d);
    }
  }

  lemma PushStep(I: Image, s: State, to: nat, name: Str)
    requires Stands(I, s.pos, PushHandler(to, name)) && s.calls != []
    ensures match Step(I.M(), s) case Went(t) => Opens(s, t, to) case _ => false
  {
    hide Exec, ExecCall, Opens, Unwind;
    ExecIsCall(I, s, PushHandler(to, name));
    GuardMoves(I.p.w, I.p.outer, PushHandler(to, name), s.pos + 1, s);
    PushGoes(I.p.w, I.p.outer, to, name, s.pos + 1, s);
  }

  lemma PushGoes(w: World, outer: Locals, to: nat, name: Str, aft: nat, s: State)
    requires s.calls != []
    ensures ExecCall(w, outer, PushHandler(to, name), aft, s).Went?
  {
  }

  lemma FailedStep(I: Image, all: iset<(nat, Level)>, r: State, ls: seq<Level>)
    requires Governs(I, all)
    requires Sound(all, r, ls) && Filled(I) && StepImpl(I.M(), r).Failed? && !Step(I.M(), r).Stuck? && r.handlers != []
    ensures match Step(I.M(), r) case Went(t) => Resumes(r, t) case _ => false
  {
    hide Sound, Filled, StepImpl, Cut, Resumes, Advances, Governs;
    SoundCalls(all, r, ls);
    SlotFares(I, all, r, ls);
    var o := StepImpl(I.M(), r);
    assert Cut(r, o.s);
    CutHandlers(r, o.s);
    UnwindResumes(I.p.w, o.err, r, o.s);
  }

  lemma CutHandlers(s: State, u: State)
    requires Cut(s, u)
    ensures u.handlers == s.handlers
  {
  }

  /** The handler pushed by the step from `s` to `s1` takes over if an instruction fails `n` steps later. */
  ghost predicate Rescues(I: Image, s: State, s1: State, n: nat, to: nat) {
    match Run(I.M(), s1, n)
    case None => false
    case Some(r) =>
      StepImpl(I.M(), r).Failed? && |r.handlers| == |s.handlers| + 1 ==>
        match Step(I.M(), r)
        case Went(t) =>
          && t.pos == to && t.values == s.values && SameFrames(s.calls, t.calls) && t.warp == s.warp
          && t.handlers == s1.handlers
        case _ => false
  }

  /** A process executes `PushHandler` after `a` steps. If the handler is still open, and the innermost one, when an
      instruction fails `n` steps later, the process resumes at the handler with its values, its calls and its
      warp as they were when the handler was pushed; only variables may have changed. */
  lemma HandlerRestores(I: Image, x: Compiled.Script, z: Setup, a: nat, s: State, to: nat, name: Str, n: nat)
    requires Loaded(I, x, z) && Run(I.M(), Begin(x, z), a) == Some(s) && Stands(I, s.pos, PushHandler(to, name))
    requires match Step(I.M(), s) case Went(s1) => StaysOpen(I.M(), s1, n, |s.handlers|) case _ => true
    ensures match Step(I.M(), s) case Went(s1) => Rescues(I, s, s1, n, to) case _ => false
  {
    hide Begin, Run, Step, StepImpl, Sound, Stands, StaysOpen, Opens, Resumes, Keeps, Governs, Everywhere, Starts;
    hide BodyAt, FilledAt;
    var all := Everywhere(I);
    LoadedGoverned(I, x, z);
    hide Loaded;
    BeginSound(I, all, x, z);
    var ls := RunSound(I, all, Begin(x, z), [GROUND], a, s);
    SoundCalls(all, s, ls);
    PushStep(I, s, to, name);
    var s1 := Step(I.M(), s).s;
    StepAdvances(I, all, s, ls);
    var ls1 :| Sound(all, s1, ls1);
    RunKeeps(I, all, s1, ls1, n, |s.handlers|);
    var r := Run(I.M(), s1, n).value;
    if StepImpl(I.M(), r).Failed? && |r.handlers| == |s.handlers| + 1 {
      var lr := RunSound(I, all, s1, ls1, n, r);
      RunThrough(I.M(), Begin(x, z), a, s, s1, n);
      NeverStuck(I, x, z, a + 1 + n);
      FailedStep(I, all, r, lr);
      Restored(s, s1, r, Step(I.M(), r).s, to);
    }
  }

  lemma RunThrough(m: Machine, s: State, a: nat, t: State, u: State, n: nat)
    requires Run(m, s, a) == Some(t) && Step(m, t) == Went(u)
    ensures Run(m, s, a + 1 + n) == Run(m, u, n)
  {
    hide Step;
    RunAdd(m, s, a, 1 + n);
  }

  lemma Restored(s: State, s1: State, r: State, t: State, to: nat)
    requires Opens(s, s1, to) && |r.handlers| == |s.handlers| + 1 && s.calls != []
    requires Keeps(s1, r, |s.handlers|) && Resumes(r, t)
    ensures t.pos == to && t.values == s.values && SameFrames(s.calls, t.calls) && t.warp == s.warp
            && t.handlers == s1.handlers
  {
    var d := |s.handlers|;
    assert r.handlers == r.handlers[..d + 1] == s1.handlers[..d + 1] == s1.handlers;
    var h := s1.handlers[d];
    assert s1.calls[..h.callSize] == s.calls;
    assert s1.values[..h.valueSize] == s.values;
    SameTwice(s.calls, r.calls[..h.callSize], t.calls);
  }
}
