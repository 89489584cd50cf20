/** Removing the unused tails of relocation holes from a code buffer, in place. */
module Shrinking {
  import opened Common
  import opened Varint
  import opened Codec
  import opened Layout

  /** Keep the first `next` of the `prev` bytes at `addr`. */
  datatype Cut = Cut(addr: nat, prev: nat, next: nat)

  /** The cuts are in order, do not overlap, keep at least one byte each, and lie in `[from, size)`. */
  predicate Ordered(plan: seq<Cut>, from: nat, size: nat)
    decreases |plan|
  {
    if plan == [] then from <= size
    else
      && from <= plan[0].addr
      && 1 <= plan[0].next <= plan[0].prev
      && plan[0].addr + plan[0].prev <= size
      && Ordered(plan[1..], plan[0].addr + plan[0].prev, size)
  }

  /** The bytes of `code` from `from` on, without the cut tails. */
  function Shrunk(code: seq<Byte>, plan: seq<Cut>, from: nat): seq<Byte>
    requires Ordered(plan, from, |code|)
    decreases |plan|
  {
    if plan == [] then code[from..]
    else code[from..plan[0].addr + plan[0].next] + Shrunk(code, plan[1..], plan[0].addr + plan[0].prev)
  }

  /** Bytes removed by a plan. */
  function Total(plan: seq<Cut>): nat
    requires forall i :: 0 <= i < |plan| ==> plan[i].next <= plan[i].prev
  {
    if plan == [] then 0 else plan[0].prev - plan[0].next + Total(plan[1..])
  }

  /** Bytes removed by the cuts that start before `p`. */
  function Before(plan: seq<Cut>, p: nat): nat
    requires forall i :: 0 <= i < |plan| ==> plan[i].next <= plan[i].prev
  {
    if plan == [] then 0
    else (if plan[0].addr < p then plan[0].prev - plan[0].next else 0) + Before(plan[1..], p)
  }

  lemma {:induction false} OrderedFacts(plan: seq<Cut>, from: nat, size: nat)
    requires Ordered(plan, from, size)
    ensures forall i :: 0 <= i < |plan| ==>
      from <= plan[i].addr && 1 <= plan[i].next <= plan[i].prev && plan[i].addr + plan[i].prev <= size
    ensures forall i, j :: 0 <= i < j < |plan| ==> plan[i].addr + plan[i].prev <= plan[j].addr
    ensures from <= size
    decreases |plan|
  {
    if plan != [] {
      OrderedFacts(plan[1..], plan[0].addr + plan[0].prev, size);
      assert forall i :: 1 <= i < |plan| ==> plan[i] == plan[1..][i - 1];
    }
  }

  lemma {:induction false} TotalSplit(xs: seq<Cut>, ys: seq<Cut>)
    requires forall i :: 0 <= i < |xs| ==> xs[i].next <= xs[i].prev
    requires forall i :: 0 <= i < |ys| ==> ys[i].next <= ys[i].prev
    ensures Total(xs + ys) == Total(xs) + Total(ys)
  {
    if xs == [] {
      assert xs + ys == ys;
    } else {
      TotalSplit(xs[1..], ys);
      assert (xs + ys)[1..] == xs[1..] + ys;
    }
  }

  /** With the first `j` cuts starting before `p` and the others not, exactly those count. */
  lemma {:induction false} BeforeIsPrefix(plan: seq<Cut>, j: nat, p: nat)
    requires forall i :: 0 <= i < |plan| ==> plan[i].next <= plan[i].prev
    requires j <= |plan|
    requires forall i :: 0 <= i < j ==> plan[i].addr < p
    requires forall i :: j <= i < |plan| ==> p <= plan[i].addr
    ensures Before(plan, p) == Total(plan[..j])
    decreases |plan|
  {
    if plan != [] {
      if j == 0 {
        BeforeIsPrefix(plan[1..], 0, p);
        assert plan[1..][..0] == plan[..0] == [];
      } else {
        BeforeIsPrefix(plan[1..], j - 1, p);
        assert plan[..j][1..] == plan[1..][..j - 1];
      }
    }
  }

  /** The overlapping in-place copy of a stretch of the buffer to an earlier place. */
  function CopyWithin(code: seq<Byte>, src: nat, end: nat, dest: nat): (r: seq<Byte>)
    requires dest <= src <= end <= |code|
    ensures |r| == |code|
  {
    code[..dest] + code[src..end] + code[dest + (end - src)..]
  }

  /** A copy towards the front extends the finished part and leaves what is still to be read. */
  lemma CopyWithinKeeps(code: seq<Byte>, src: nat, end: nat, dest: nat, next: nat)
    requires dest <= src <= end <= next <= |code|
    ensures CopyWithin(code, src, end, dest)[..dest + (end - src)] == code[..dest] + code[src..end]
    ensures CopyWithin(code, src, end, dest)[next..] == code[next..]
  {}

  lemma SameSlices(a: seq<Byte>, b: seq<Byte>, src: nat, end: nat, aft: nat)
    requires src <= end <= aft <= |a| == |b| && a[src..] == b[src..]
    ensures a[src..end] == b[src..end] && a[aft..] == b[aft..]
  {
    assert a[src..end] == a[src..][..end - src] && b[src..end] == b[src..][..end - src];
    assert a[aft..] == a[src..][aft - src..] && b[aft..] == b[src..][aft - src..];
  }

  /** One gap closed: the finished part grows by the stretch up to the end of the kept bytes. */
  lemma GapClosed(before: seq<Byte>, code0: seq<Byte>, plan: seq<Cut>, src: nat, dest: nat)
    requires |before| == |code0| && plan != [] && Ordered(plan, src, |code0|)
    requires dest <= src <= |code0| && before[src..] == code0[src..]
    ensures src <= plan[0].addr + plan[0].next <= plan[0].addr + plan[0].prev <= |code0|
    ensures
      var end, aft := plan[0].addr + plan[0].next, plan[0].addr + plan[0].prev;
      var after := CopyWithin(before, src, end, dest);
      && after[aft..] == code0[aft..]
      && after[..dest + (end - src)] + Shrunk(code0, plan[1..], aft) == before[..dest] + Shrunk(code0, plan, src)
  {
    FirstCut(plan, 0, src, |code0|);
    assert plan[0..] == plan;
    hide Shrunk, CopyWithin, Ordered;
    var end, aft := plan[0].addr + plan[0].next, plan[0].addr + plan[0].prev;
    CopyWithinKeeps(before, src, end, dest, aft);
    SameSlices(before, code0, src, end, aft);
    ShrunkStep(code0, plan, src);
    Reassociate(before[..dest], code0[src..end], Shrunk(code0, plan[1..], aft));
  }

  lemma ShrunkStep(code0: seq<Byte>, plan: seq<Cut>, src: nat)
    requires plan != [] && Ordered(plan, src, |code0|)
    ensures Shrunk(code0, plan, src) == code0[src..plan[0].addr + plan[0].next]
            + Shrunk(code0, plan[1..], plan[0].addr + plan[0].prev)
  {
  }

  lemma Reassociate(x: seq<Byte>, y: seq<Byte>, z: seq<Byte>)
    ensures (x + y) + z == x + (y + z)
  {
  }

  ghost predicate Increasing(s: seq<nat>) {
    forall i, j :: 0 <= i < j < |s| ==> s[i] < s[j]
  }

  /** Advances the position iterator up to an address, or to the end, moving each position passed. */
  method MoveDown(positions0: seq<nat>, next0: nat, limit: Option<nat>, shift: nat)
      returns (positions: seq<nat>, next: nat)
    requires next0 <= |positions0|
    requires forall i :: next0 <= i < |positions0| ==> shift <= positions0[i]
    ensures next0 <= next <= |positions| == |positions0|
    ensures forall i :: 0 <= i < |positions| ==>
              positions[i] == positions0[i] - (if next0 <= i < next then shift else 0)
    ensures limit.Some? ==> forall i :: next0 <= i < next ==> positions0[i] <= limit.value
    ensures next < |positions| ==> limit.Some? && limit.value < positions0[next]
  {
    positions, next := positions0, next0;
    while next < |positions| && (limit.None? || positions[next] <= limit.value)
      invariant next0 <= next <= |positions| == |positions0|
      invariant forall i :: 0 <= i < |positions| ==>
                  positions[i] == positions0[i] - (if next0 <= i < next then shift else 0)
      invariant limit.Some? ==> forall i :: next0 <= i < next ==> positions0[i] <= limit.value
      decreases |positions| - next
    {
      positions := positions[next := positions[next] - shift];
      next := next + 1;
    }
  }

  /** No position lies inside a hole. */
  ghost predicate Outside(positions: seq<nat>, plan: seq<Cut>) {
    forall i, j :: 0 <= i < |positions| && 0 <= j < |plan| ==>
      positions[i] <= plan[j].addr || plan[j].addr + plan[j].prev <= positions[i]
  }

  /** The positions below `next` have been moved, the others are untouched and lie behind the first `j` cuts. */
  ghost predicate Moving(positions0: seq<nat>, positions: seq<nat>, plan: seq<Cut>, next: nat, j: nat)
    requires forall i :: 0 <= i < |plan| ==> plan[i].next <= plan[i].prev
  {
    && next <= |positions| == |positions0| && j <= |plan|
    && (forall i :: 0 <= i < next ==> positions[i] + Before(plan, positions0[i]) == positions0[i])
    && (forall i :: next <= i < |positions| ==> positions[i] == positions0[i])
    && (j > 0 ==> forall i :: next <= i < |positions| ==> plan[j - 1].addr < positions0[i])
  }

  lemma MovingStep(positions0: seq<nat>, old_: seq<nat>, positions: seq<nat>, plan: seq<Cut>, next0: nat, next: nat,
                   j: nat, size: nat)
    requires Ordered(plan, 0, size) && Increasing(positions0)
    requires forall i :: 0 <= i < |plan| ==> plan[i].next <= plan[i].prev
    requires Moving(positions0, old_, plan, next0, j)
    requires next0 <= next <= |positions| == |positions0|
    requires forall i :: 0 <= i < |positions| ==>
               positions[i] == old_[i] - (if next0 <= i < next then Total(plan[..j]) else 0)
    requires j < |plan| ==> forall i :: next0 <= i < next ==> positions0[i] <= plan[j].addr
    requires next < |positions| ==> j < |plan| && plan[j].addr < positions0[next]
    ensures Moving(positions0, positions, plan, next, if j < |plan| then j + 1 else j)
  {
    OrderedFacts(plan, 0, size);
    forall i | next0 <= i < next ensures positions[i] + Before(plan, positions0[i]) == positions0[i] {
      BeforeIsPrefix(plan, j, positions0[i]);
    }
  }

  /** Where reading resumes after the first `j` cuts. */
  function Resume(plan: seq<Cut>, j: nat): nat
    requires j <= |plan|
  {
    if j == 0 then 0 else plan[j - 1].addr + plan[j - 1].prev
  }

  lemma {:induction false} OrderedRest(plan: seq<Cut>, from: nat, size: nat, j: nat)
    requires Ordered(plan, from, size) && j <= |plan|
    ensures j > 0 ==> Ordered(plan[j..], Resume(plan, j), size) && Resume(plan, j) <= size
    ensures j == 0 ==> plan[j..] == plan
    decreases j
  {
    if j > 1 {
      OrderedRest(plan[1..], plan[0].addr + plan[0].prev, size, j - 1);
      assert plan[1..][j - 1..] == plan[j..];
    }
    OrderedFacts(plan, from, size);
  }

  lemma TotalNext(plan: seq<Cut>, j: nat)
    requires forall i :: 0 <= i < |plan| ==> plan[i].next <= plan[i].prev
    requires j < |plan|
    ensures Total(plan[..j + 1]) == Total(plan[..j]) + (plan[j].prev - plan[j].next)
  {
    var cut := plan[j];
    assert plan[..j + 1] == plan[..j] + [cut];
    TotalSplit(plan[..j], [cut]);
    assert [cut][1..] == [];
  }

  /** After `j` cuts the finished front of the buffer is the shrunk form of what has been read, and
      what is still to be read is untouched. */
  ghost predicate Closing(code0: seq<Byte>, code: seq<Byte>, plan: seq<Cut>, j: nat, dest: nat, shift: nat)
    requires Ordered(plan, 0, |code0|)
    requires forall i :: 0 <= i < |plan| ==> plan[i].next <= plan[i].prev
  {
    && |code| == |code0| && j <= |plan|
    && var src := Resume(plan, j);
    && src <= |code0| && Ordered(plan[j..], src, |code0|)
    && shift == Total(plan[..j]) && dest + shift == src
    && code[src..] == code0[src..]
    && code[..dest] + Shrunk(code0, plan[j..], src) == Shrunk(code0, plan, 0)
  }

  /** What is left of one turn of the loop, in terms of the place where reading goes on. */
  lemma ClosingNext(code0: seq<Byte>, after: seq<Byte>, plan: seq<Cut>, j: nat, aft: nat, dest: nat, shift: nat)
    requires Ordered(plan, 0, |code0|)
    requires forall i :: 0 <= i < |plan| ==> plan[i].next <= plan[i].prev
    requires |after| == |code0| && j <= |plan| && aft == Resume(plan, j) <= |code0| && Ordered(plan[j..], aft, |code0|)
    requires shift == Total(plan[..j]) && dest + shift == aft
    requires after[aft..] == code0[aft..] && after[..dest] + Shrunk(code0, plan[j..], aft) == Shrunk(code0, plan, 0)
    ensures Closing(code0, after, plan, j, dest, shift)
  {
    hide Shrunk, Ordered, Total, Resume;
  }

  lemma ClosingParts(code0: seq<Byte>, code: seq<Byte>, plan: seq<Cut>, j: nat, dest: nat, shift: nat)
    requires Ordered(plan, 0, |code0|)
    requires forall i :: 0 <= i < |plan| ==> plan[i].next <= plan[i].prev
    requires Closing(code0, code, plan, j, dest, shift)
    ensures |code| == |code0| && j <= |plan|
    ensures var src := Resume(plan, j);
            && src <= |code0| && Ordered(plan[j..], src, |code0|) && shift == Total(plan[..j]) && dest + shift == src
            && code[src..] == code0[src..] && code[..dest] + Shrunk(code0, plan[j..], src) == Shrunk(code0, plan, 0)
  {
    hide Shrunk, Ordered, Total, Resume;
  }

  lemma ClosingStep(code0: seq<Byte>, code: seq<Byte>, plan: seq<Cut>, j: nat, src: nat, dest: nat, shift: nat,
                    cut: Cut)
    requires Ordered(plan, 0, |code0|)
    requires forall i :: 0 <= i < |plan| ==> plan[i].next <= plan[i].prev
    requires Closing(code0, code, plan, j, dest, shift) && j < |plan| && src == Resume(plan, j) && cut == plan[j]
    ensures dest <= src <= cut.addr && cut.next <= cut.prev && cut.addr + cut.prev <= |code| && dest + shift == src
            && shift == Total(plan[..j])
    ensures Closing(code0, CopyWithin(code, src, cut.addr + cut.next, dest), plan, j + 1,
                    dest + (cut.addr + cut.next - src), shift + (cut.prev - cut.next))
  {
    hide *;
    ClosingParts(code0, code, plan, j, dest, shift);
    ClosingGap(code0, code, plan, j, src, dest);
    TotalNext(plan, j);
    ClosingNext(code0, CopyWithin(code, src, cut.addr + cut.next, dest), plan, j + 1, cut.addr + cut.prev,
                dest + (cut.addr + cut.next - src), shift + (cut.prev - cut.next));
  }

  lemma ClosingGap(code0: seq<Byte>, code: seq<Byte>, plan: seq<Cut>, j: nat, src: nat, dest: nat)
    requires Ordered(plan, 0, |code0|) && j < |plan| && |code| == |code0| && Ordered(plan[j..], src, |code0|)
    requires dest <= src <= |code0| && code[src..] == code0[src..]
             && code[..dest] + Shrunk(code0, plan[j..], src) == Shrunk(code0, plan, 0)
    ensures src <= plan[j].addr && plan[j].next <= plan[j].prev && plan[j].addr + plan[j].prev <= |code0|
    ensures var end, aft := plan[j].addr + plan[j].next, plan[j].addr + plan[j].prev;
            var after := CopyWithin(code, src, end, dest);
            && aft == Resume(plan, j + 1) && Ordered(plan[j + 1..], aft, |code0|)
            && after[aft..] == code0[aft..]
            && after[..dest + (end - src)] + Shrunk(code0, plan[j + 1..], aft) == Shrunk(code0, plan, 0)
  {
    hide *;
    OrderedRest(plan, 0, |code0|, j + 1);
    FirstCut(plan, j, src, |code0|);
    ResumeNext(plan, j);
    OneGap(code, code0, plan[j..], plan[j + 1..], plan[j], src, plan[j].addr + plan[j].next,
           plan[j].addr + plan[j].prev, dest, Shrunk(code0, plan, 0));
  }

  lemma OneGap(code: seq<Byte>, code0: seq<Byte>, now: seq<Cut>, rest: seq<Cut>, cut: Cut, src: nat, end: nat,
               aft: nat, dest: nat, whole: seq<Byte>)
    requires |code| == |code0| && now != [] && now[0] == cut && now[1..] == rest && Ordered(now, src, |code0|)
    requires end == cut.addr + cut.next && aft == cut.addr + cut.prev
    requires dest <= src <= |code0| && code[src..] == code0[src..] && code[..dest] + Shrunk(code0, now, src) == whole
    ensures src <= end <= aft <= |code0|
    ensures var after := CopyWithin(code, src, end, dest);
            after[aft..] == code0[aft..] && after[..dest + (end - src)] + Shrunk(code0, rest, aft) == whole
  {
    hide *;
    GapClosed(code, code0, now, src, dest);
  }

  lemma FirstCut(plan: seq<Cut>, j: nat, from: nat, size: nat)
    requires j < |plan| && Ordered(plan[j..], from, size)
    ensures plan[j..] != [] && plan[j..][0] == plan[j] && plan[j..][1..] == plan[j + 1..]
    ensures from <= plan[j].addr && plan[j].next <= plan[j].prev && plan[j].addr + plan[j].prev <= size
  {
  }

  lemma ResumeNext(plan: seq<Cut>, j: nat)
    requires j < |plan|
    ensures Resume(plan, j + 1) == plan[j].addr + plan[j].prev
  {
  }

  lemma ClosingStart(code0: seq<Byte>, plan: seq<Cut>)
    requires Ordered(plan, 0, |code0|)
    requires forall i :: 0 <= i < |plan| ==> plan[i].next <= plan[i].prev
    ensures Closing(code0, code0, plan, 0, 0, 0)
  {
    assert plan[0..] == plan;
  }

  lemma ClosingEnd(code0: seq<Byte>, code: seq<Byte>, plan: seq<Cut>, dest: nat, shift: nat)
    requires Ordered(plan, 0, |code0|)
    requires forall i :: 0 <= i < |plan| ==> plan[i].next <= plan[i].prev
    requires Closing(code0, code, plan, |plan|, dest, shift)
    ensures
      var src, size := Resume(plan, |plan|), |code0| - shift;
      && dest <= src && dest <= size && src + (size - dest) <= |code| && shift <= src && shift == Total(plan[..|plan|])
      && CopyWithin(code, src, src + (size - dest), dest)[..size] == Shrunk(code0, plan, 0)
      && shift == Total(plan)
  {
    assert plan[..|plan|] == plan && plan[|plan|..] == [];
  }

  /** Positions yet to be moved lie behind what has been read, so that there is room to move them. */
  lemma RoomToMove(plan: seq<Cut>, positions0: seq<nat>, positions: seq<nat>, next: nat, j: nat, shift: nat)
    requires forall i :: 0 <= i < |plan| ==> plan[i].next <= plan[i].prev
    requires Moving(positions0, positions, plan, next, j) && Outside(positions0, plan) && j <= |plan|
             && shift <= Resume(plan, j)
    ensures forall i :: next <= i < |positions| ==> shift <= positions[i]
  {
    hide Before;
  }

  /** The holes handled so far are recorded at their new places. */
  ghost predicate Tracked(plan: seq<Cut>, moved: map<nat, nat>, j: nat)
    requires forall i :: 0 <= i < |plan| ==> plan[i].next <= plan[i].prev
  {
    && j <= |plan|
    && forall i :: 0 <= i < j ==>
         plan[i].addr in moved && moved[plan[i].addr] + Before(plan, plan[i].addr) == plan[i].addr
  }

  lemma TrackedStep(plan: seq<Cut>, moved: map<nat, nat>, j: nat, size: nat, shift: nat)
    requires Ordered(plan, 0, size)
    requires forall i :: 0 <= i < |plan| ==> plan[i].next <= plan[i].prev
    requires Tracked(plan, moved, j) && j < |plan| && shift == Total(plan[..j]) <= plan[j].addr
    ensures Tracked(plan, moved[plan[j].addr := plan[j].addr - shift], j + 1)
  {
    OrderedFacts(plan, 0, size);
    BeforeIsPrefix(plan, j, plan[j].addr);
  }

  /** The first half of applying a plan: close the gaps in the buffer in one pass, move every
      instruction position down by the bytes removed before it, and say where each hole went. */
  method CloseGaps(plan: seq<Cut>, code0: seq<Byte>, positions0: seq<nat>)
    returns (code: seq<Byte>, positions: seq<nat>, moved: map<nat, nat>, totalShift: nat)
    requires Ordered(plan, 0, |code0|) && Increasing(positions0) && Outside(positions0, plan)
    ensures forall i :: 0 <= i < |plan| ==> plan[i].next <= plan[i].prev
    ensures code == Shrunk(code0, plan, 0)
    ensures totalShift == Total(plan) && |code| + totalShift == |code0|
    ensures |positions| == |positions0|
    ensures forall i :: 0 <= i < |positions0| ==> positions[i] + Before(plan, positions0[i]) == positions0[i]
    ensures forall i :: 0 <= i < |plan| ==>
      plan[i].addr in moved && moved[plan[i].addr] + Before(plan, plan[i].addr) == plan[i].addr
  {
    hide Shrunk, Ordered, Total, Before, CopyWithin, Increasing, Closing, Outside;
    OrderedFacts(plan, 0, |code0|);
    code, positions, moved := code0, positions0, map[];
    var dest: nat, src: nat, next: nat := 0, 0, 0;
    totalShift := 0;
    ClosingStart(code0, plan);
    for j := 0 to |plan|
      invariant src == Resume(plan, j)
      invariant Closing(code0, code, plan, j, dest, totalShift)
      invariant Moving(positions0, positions, plan, next, j)
      invariant Tracked(plan, moved, j)
    {
      var cut := plan[j];
      ClosingStep(code0, code, plan, j, src, dest, totalShift, cut);
      ghost var positions1, next1 := positions, next;
      RoomToMove(plan, positions0, positions, next, j, totalShift);
      positions, next := MoveDown(positions, next, Some(cut.addr), totalShift);
      MovingStep(positions0, positions1, positions, plan, next1, next, j, |code0|);
      TrackedStep(plan, moved, j, |code0|, totalShift);
      var end := cut.addr + cut.next;
      code := CopyWithin(code, src, end, dest);
      dest := dest + (end - src);
      src := cut.addr + cut.prev;
      moved := moved[cut.addr := dest - cut.next];
      totalShift := totalShift + (cut.prev - cut.next);
    }
    ClosingEnd(code0, code, plan, dest, totalShift);
    ghost var positions1, next1 := positions, next;
    RoomToMove(plan, positions0, positions, next, |plan|, totalShift);
    positions, next := MoveDown(positions, next, None, totalShift);
    MovingStep(positions0, positions1, positions, plan, next1, next, |plan|, |code0|);
    var size := |code0| - totalShift;
    code := CopyWithin(code, src, src + (size - dest), dest);
    code := code[..size];
  }
}
