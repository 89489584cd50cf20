/** Shrinking a plan seen on chunks: cutting holes keeps every other chunk, and moves each chunk down
    by exactly the bytes removed before it. */
module Relaxation {
  import opened Common
  import opened Varint
  import opened Bytecode
  import opened Codec
  import opened Layout
  import opened Shrinking

  /** Chunk indices in strictly increasing order. */
  ghost predicate Indices(holes: seq<nat>, n: nat) {
    Increasing(holes) && forall i :: 0 <= i < |holes| ==> holes[i] < n
  }

  ghost predicate NonEmpty(cs: seq<seq<Byte>>) {
    forall k :: 0 <= k < |cs| ==> |cs[k]| >= 1
  }

  /** `cut` keeps a non-empty front of every chunk, and all of the chunks that are not holes. */
  ghost predicate IsCut(cs: seq<seq<Byte>>, cut: seq<seq<Byte>>, holes: seq<nat>) {
    && |cut| == |cs|
    && NonEmpty(cut)
    && (forall k :: 0 <= k < |cs| ==> cut[k] <= cs[k])
    && (forall k :: 0 <= k < |cs| && k !in holes ==> cut[k] == cs[k])
  }

  /** The plan that cuts those holes. */
  ghost predicate IsPlan(plan: seq<Cut>, cs: seq<seq<Byte>>, cut: seq<seq<Byte>>, holes: seq<nat>)
    requires |cut| == |cs| && Indices(holes, |cs|)
  {
    && |plan| == |holes|
    && forall j :: 0 <= j < |plan| ==> plan[j] == Cut(Addr(cs, holes[j]), |cs[holes[j]]|, |cut[holes[j]]|)
  }

  lemma {:induction false} AddrStrict(cs: seq<seq<Byte>>, j: nat, k: nat)
    requires NonEmpty(cs) && j < k <= |cs|
    ensures Addr(cs, j) < Addr(cs, k)
    decreases k
  {
    if j < k - 1 {
      AddrStrict(cs, j, k - 1);
    }
  }

  lemma CutIsNonEmpty(cs: seq<seq<Byte>>, cut: seq<seq<Byte>>, holes: seq<nat>)
    requires IsCut(cs, cut, holes)
    ensures NonEmpty(cs) && forall k :: 0 <= k < |cs| ==> 1 <= |cut[k]| <= |cs[k]|
  {}

  /** A run of untouched chunks starting at `a` and reaching the next hole. */
  ghost predicate Reaches(holes: seq<nat>, j: nat, a: nat, n: nat) {
    && j <= |holes| && a <= n
    && (j < |holes| ==> a <= holes[j])
    && (forall i :: 0 <= i < j ==> holes[i] < a)
  }

  lemma NextReach(holes: seq<nat>, j: nat, a: nat, n: nat)
    requires Indices(holes, n) && Reaches(holes, j, a, n) && j < |holes|
    ensures Reaches(holes, j + 1, holes[j] + 1, n)
  {}

  lemma {:induction false} PlanOrdered(plan: seq<Cut>, cs: seq<seq<Byte>>, cut: seq<seq<Byte>>, holes: seq<nat>,
                                       j: nat, a: nat)
    requires IsCut(cs, cut, holes) && Indices(holes, |cs|) && IsPlan(plan, cs, cut, holes)
    requires Reaches(holes, j, a, |cs|)
    ensures Ordered(plan[j..], Addr(cs, a), |Flat(cs)|)
    decreases |holes| - j
  {
    hide Flat, Addr, IsPlan, Indices, IsCut;
    FlatLength(cs);
    AddrMonotone(cs, a, |cs|);
    PlanSize(plan, cs, cut, holes);
    if j < |holes| {
      var h := holes[j];
      NextReach(holes, j, a, |cs|);
      PlanEntry(plan, cs, cut, holes, j);
      AddrMonotone(cs, a, h);
      AddrMonotone(cs, h + 1, |cs|);
      AddrNext(cs, h);
      PlanOrdered(plan, cs, cut, holes, j + 1, h + 1);
      assert plan[j..][0] == plan[j] && plan[j..][1..] == plan[j + 1..];
    }
  }

  lemma PlanSize(plan: seq<Cut>, cs: seq<seq<Byte>>, cut: seq<seq<Byte>>, holes: seq<nat>)
    requires IsCut(cs, cut, holes) && Indices(holes, |cs|) && IsPlan(plan, cs, cut, holes)
    ensures |plan| == |holes|
  {
    hide Addr;
  }

  lemma PlanEntry(plan: seq<Cut>, cs: seq<seq<Byte>>, cut: seq<seq<Byte>>, holes: seq<nat>, j: nat)
    requires IsCut(cs, cut, holes) && Indices(holes, |cs|) && IsPlan(plan, cs, cut, holes) && j < |holes|
    ensures |plan| == |holes| && |cut| == |cs| && holes[j] < |cs|
    ensures plan[j] == Cut(Addr(cs, holes[j]), |cs[holes[j]]|, |cut[holes[j]]|)
            && 1 <= |cut[holes[j]]| <= |cs[holes[j]]|
  {
    hide Addr;
  }

  lemma UntouchedRun(cs: seq<seq<Byte>>, cut: seq<seq<Byte>>, holes: seq<nat>, j: nat, a: nat, b: nat)
    requires IsCut(cs, cut, holes) && Indices(holes, |cs|) && Reaches(holes, j, a, |cs|)
    requires a <= b <= |cs| && (j < |holes| ==> b <= holes[j])
    ensures cut[a..b] == cs[a..b]
  {
    assert forall k :: a <= k < b ==> k !in holes;
  }

  lemma HoleBytes(cs: seq<seq<Byte>>, cut: seq<seq<Byte>>, a: nat, h: nat)
    requires |cut| == |cs| && a <= h < |cs| && cut[h] <= cs[h] && cut[a..h] == cs[a..h]
    ensures Addr(cs, a) <= Addr(cs, h) + |cut[h]| <= |Flat(cs)|
    ensures Flat(cs)[Addr(cs, a)..Addr(cs, h) + |cut[h]|] == Flat(cut[a..h + 1])
  {
    hide Flat, Addr;
    FlatSlice(cs, a, h);
    FlatSlice(cs, h, h + 1);
    FlatAt(cs, h);
    var code, x, y, z := Flat(cs), Addr(cs, a), Addr(cs, h), |cut[h]|;
    assert code[x..y + z] == code[x..y] + code[y..y + z];
    assert cs[h][..z] == cut[h];
    assert code[y..y + z] == code[y..y + |cs[h]|][..z];
    SliceSnoc(cut, a, h);
    FlatAppend(cut[a..h], [cut[h]]);
    FlatOne(cut[h]);
  }

  lemma SliceSnoc<T>(s: seq<T>, a: nat, h: nat)
    requires a <= h < |s|
    ensures s[a..h + 1] == s[a..h] + [s[h]]
  {
  }

  lemma FlatOne(c: seq<Byte>)
    ensures Flat([c]) == c
  {
    assert Flat([c]) == c + Flat([]);
  }

  lemma AddrNext(cs: seq<seq<Byte>>, k: nat)
    requires k < |cs|
    ensures Addr(cs, k + 1) == Addr(cs, k) + |cs[k]|
  {}

  /** Cutting the bytes is cutting the chunks. */
  lemma {:induction false} PlanShrinks(plan: seq<Cut>, cs: seq<seq<Byte>>, cut: seq<seq<Byte>>, holes: seq<nat>,
                                       j: nat, a: nat)
    requires IsCut(cs, cut, holes) && Indices(holes, |cs|) && IsPlan(plan, cs, cut, holes)
    requires Reaches(holes, j, a, |cs|)
    requires Ordered(plan[j..], Addr(cs, a), |Flat(cs)|)
    ensures Shrunk(Flat(cs), plan[j..], Addr(cs, a)) == Flat(cut[a..])
    decreases |holes| - j
  {
    hide Addr, Flat;
    if j == |holes| {
      UntouchedRun(cs, cut, holes, j, a, |cs|);
      assert cut[a..|cs|] == cut[a..] && cs[a..|cs|] == cs[a..];
      FlatSlice(cs, a, |cs|);
      FlatLength(cs);
      assert Flat(cs)[Addr(cs, a)..|Flat(cs)|] == Flat(cs)[Addr(cs, a)..];
    } else {
      var h := holes[j];
      var rest := plan[j + 1..];
      assert plan[j..][0] == plan[j] && plan[j..][1..] == rest;
      UntouchedRun(cs, cut, holes, j, a, h);
      HoleBytes(cs, cut, a, h);
      NextReach(holes, j, a, |cs|);
      AddrNext(cs, h);
      PlanShrinks(plan, cs, cut, holes, j + 1, h + 1);
      assert cut[a..] == cut[a..h + 1] + cut[h + 1..];
      FlatAppend(cut[a..h + 1], cut[h + 1..]);
    }
  }

  lemma PlanKeeps(plan: seq<Cut>, cs: seq<seq<Byte>>, cut: seq<seq<Byte>>, holes: seq<nat>)
    requires IsCut(cs, cut, holes) && Indices(holes, |cs|) && IsPlan(plan, cs, cut, holes)
    ensures forall i :: 0 <= i < |plan| ==> plan[i].next <= plan[i].prev
  {}

  /** The first `j` holes are those before chunk `k`. */
  ghost predicate Splits(holes: seq<nat>, j: nat, k: nat) {
    && j <= |holes|
    && (forall i :: 0 <= i < j ==> holes[i] < k)
    && (forall i :: j <= i < |holes| ==> k <= holes[i])
  }

  /** The last chunk before `k` is a hole, and then one of the `j`, or it is not cut. */
  lemma LastChunk(cs: seq<seq<Byte>>, cut: seq<seq<Byte>>, holes: seq<nat>, j: nat, k: nat)
    requires IsCut(cs, cut, holes) && Indices(holes, |cs|) && Splits(holes, j, k) && 0 < k <= |cs|
    ensures |cut| == |cs| && j <= |holes|
    ensures if j > 0 && holes[j - 1] == k - 1 then Splits(holes, j - 1, k - 1)
            else Splits(holes, j, k - 1) && |cut[k - 1]| == |cs[k - 1]|
  {
    if !(j > 0 && holes[j - 1] == k - 1) {
      forall i | 0 <= i < j ensures holes[i] < k - 1 {
      }
      assert k - 1 !in holes;
    }
  }

  /** The bytes that are cut off the chunks before `k`. */
  function Saved(cs: seq<seq<Byte>>, cut: seq<seq<Byte>>, k: nat): int
    requires |cut| == |cs| && k <= |cs|
  {
    if k == 0 then 0 else Saved(cs, cut, k - 1) + |cs[k - 1]| - |cut[k - 1]|
  }

  lemma {:induction false} AddrSaved(cs: seq<seq<Byte>>, cut: seq<seq<Byte>>, k: nat)
    requires |cut| == |cs| && k <= |cs|
    ensures Addr(cut, k) + Saved(cs, cut, k) == Addr(cs, k)
    decreases k
  {
    if k > 0 {
      AddrSaved(cs, cut, k - 1);
    }
  }

  ghost predicate Shrinks(plan: seq<Cut>) {
    forall i :: 0 <= i < |plan| ==> plan[i].next <= plan[i].prev
  }

  function TotalOf(plan: seq<Cut>, j: nat): nat
    requires Shrinks(plan) && j <= |plan|
  {
    Total(plan[..j])
  }

  lemma TotalOfNext(plan: seq<Cut>, j: nat)
    requires Shrinks(plan)
    ensures TotalOf(plan, 0) == 0
    ensures 0 < j <= |plan| ==> TotalOf(plan, j) == TotalOf(plan, j - 1) + (plan[j - 1].prev - plan[j - 1].next)
  {
    if 0 < j <= |plan| {
      TotalNext(plan, j - 1);
    }
  }

  lemma {:induction false} SavedTotal(plan: seq<Cut>, cs: seq<seq<Byte>>, cut: seq<seq<Byte>>, holes: seq<nat>, j: nat,
                                      k: nat)
    requires IsCut(cs, cut, holes) && Indices(holes, |cs|) && IsPlan(plan, cs, cut, holes) && Shrinks(plan)
    requires Splits(holes, j, k) && k <= |cs|
    ensures Saved(cs, cut, k) == TotalOf(plan, j)
    decreases k
  {
    hide IsCut, Indices, IsPlan, Splits, TotalOf, Shrinks;
    TotalOfNext(plan, j);
    if k == 0 {
      NoneBefore(holes, j);
    } else {
      LastChunk(cs, cut, holes, j, k);
      if j > 0 && holes[j - 1] == k - 1 {
        PlanEntry(plan, cs, cut, holes, j - 1);
        SavedTotal(plan, cs, cut, holes, j - 1, k - 1);
      } else {
        SavedTotal(plan, cs, cut, holes, j, k - 1);
      }
    }
  }

  lemma NoneBefore(holes: seq<nat>, j: nat)
    requires Splits(holes, j, 0)
    ensures j == 0
  {
    var first := if holes != [] then holes[0] else 0;
    assert first >= 0;
  }

  /** The address of chunk `k`, with the `j` holes before it cut. */
  lemma AddrTotal(plan: seq<Cut>, cs: seq<seq<Byte>>, cut: seq<seq<Byte>>, holes: seq<nat>, j: nat, k: nat)
    requires IsCut(cs, cut, holes) && Indices(holes, |cs|) && IsPlan(plan, cs, cut, holes) && Shrinks(plan)
    requires Splits(holes, j, k) && k <= |cs|
    ensures Addr(cut, k) + TotalOf(plan, j) == Addr(cs, k)
  {
    hide Indices, IsPlan, Splits, TotalOf, Shrinks, Saved, Addr;
    AddrSaved(cs, cut, k);
    SavedTotal(plan, cs, cut, holes, j, k);
  }

  lemma {:induction false} HolesBelow(holes: seq<nat>, n: nat, k: nat) returns (j: nat)
    requires Indices(holes, n)
    ensures Splits(holes, j, k)
  {
    j := 0;
    while j < |holes| && holes[j] < k
      invariant j <= |holes|
      invariant forall i :: 0 <= i < j ==> holes[i] < k
    {
      j := j + 1;
    }
  }

  /** Every chunk moves down by exactly the bytes removed before it. */
  lemma AddrCut(plan: seq<Cut>, cs: seq<seq<Byte>>, cut: seq<seq<Byte>>, holes: seq<nat>, k: nat)
    requires IsCut(cs, cut, holes) && Indices(holes, |cs|) && IsPlan(plan, cs, cut, holes)
    requires forall i :: 0 <= i < |plan| ==> plan[i].next <= plan[i].prev
    requires k <= |cs|
    ensures Addr(cut, k) + Before(plan, Addr(cs, k)) == Addr(cs, k)
  {
    var j := HolesBelow(holes, |cs|, k);
    AddrTotal(plan, cs, cut, holes, j, k);
    forall i | 0 <= i < j ensures plan[i].addr < Addr(cs, k) {
      AddrStrict(cs, holes[i], k);
    }
    forall i | j <= i < |plan| ensures Addr(cs, k) <= plan[i].addr {
      AddrMonotone(cs, k, holes[i]);
    }
    BeforeIsPrefix(plan, j, Addr(cs, k));
  }

  // ----- instruction positions -----

  lemma {:induction false} FirstStrict(prog: seq<Instruction>, i: nat, j: nat)
    requires i < j <= |prog|
    ensures First(prog, i) < First(prog, j) <= |Pieces(prog)|
    decreases j
  {
    hide Opcode, Operands;
    InstructionRun(prog, j - 1);
    if i < j - 1 {
      FirstStrict(prog, i, j - 1);
    }
  }

  lemma PlacedIncreasing(prog: seq<Instruction>, cs: seq<seq<Byte>>, positions: seq<nat>)
    requires Placed(prog, cs, positions) && NonEmpty(cs)
    ensures Increasing(positions)
  {
    hide Opcode, Operands;
    forall i, j | 0 <= i < j < |positions| ensures positions[i] < positions[j] {
      FirstStrict(prog, i, j);
      AddrStrict(cs, First(prog, i), First(prog, j));
    }
  }

  lemma PlacedOutside(prog: seq<Instruction>, plan: seq<Cut>, cs: seq<seq<Byte>>, cut: seq<seq<Byte>>, holes: seq<nat>,
                      positions: seq<nat>)
    requires Placed(prog, cs, positions)
    requires |cut| == |cs| && Indices(holes, |cs|) && IsPlan(plan, cs, cut, holes)
    ensures Outside(positions, plan)
  {
    hide Opcode, Operands;
    forall i, j | 0 <= i < |positions| && 0 <= j < |plan|
      ensures positions[i] <= plan[j].addr || plan[j].addr + plan[j].prev <= positions[i]
    {
      var f, h := First(prog, i), holes[j];
      if f <= h {
        AddrMonotone(cs, f, h);
      } else {
        AddrMonotone(cs, h + 1, f);
        assert Addr(cs, h + 1) == Addr(cs, h) + |cs[h]|;
      }
    }
  }

  lemma PlacedCut(prog: seq<Instruction>, plan: seq<Cut>, cs: seq<seq<Byte>>, cut: seq<seq<Byte>>, holes: seq<nat>,
                  positions: seq<nat>, moved: seq<nat>)
    requires Placed(prog, cs, positions) && |moved| == |positions|
    requires IsCut(cs, cut, holes) && Indices(holes, |cs|) && IsPlan(plan, cs, cut, holes)
    requires forall i :: 0 <= i < |plan| ==> plan[i].next <= plan[i].prev
    requires forall i :: 0 <= i < |positions| ==> moved[i] + Before(plan, positions[i]) == positions[i]
    ensures Placed(prog, cut, moved)
  {
    hide Opcode, Operands;
    forall i | 0 <= i < |prog| ensures First(prog, i) <= |cut| && moved[i] == Addr(cut, First(prog, i)) {
      AddrCut(plan, cs, cut, holes, First(prog, i));
    }
  }

  /** Chunks of the same sizes lie at the same addresses. */
  lemma {:induction false} AddrSameSizes(cs: seq<seq<Byte>>, ds: seq<seq<Byte>>, k: nat)
    requires |cs| == |ds| && k <= |cs| && forall i :: 0 <= i < |cs| ==> |cs[i]| == |ds[i]|
    ensures Addr(cs, k) == Addr(ds, k)
    decreases k
  {
    if k > 0 {
      AddrSameSizes(cs, ds, k - 1);
    }
  }
}
