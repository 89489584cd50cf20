/** From the instruction that fails to the block it came from: locations are recorded behind the blocks they belong
    to, placed by the linker, and looked up by the address of an instruction. */
module Located {
  import opened Common
  import opened Bytecode
  import opened Ast
  import opened Codegen
  import opened Codec
  import opened Layout
  import opened LinkedCode
  import opened Locations

  /** A block with a location: its instructions are those from `start` up to, not including, `end`. */
  datatype Block = Block(start: nat, end: nat, loc: Str)

  predicate Covers(b: Block, q: nat) {
    b.start <= q < b.end
  }

  /** Blocks are recorded when their code is complete: after the blocks inside them, and after all in front. */
  ghost predicate InOrder(bs: seq<Block>) {
    && (forall i :: 0 <= i < |bs| ==> bs[i].start <= bs[i].end)
    && forall i, j :: 0 <= i < j < |bs| ==>
         bs[i].end <= bs[j].start || (bs[j].start <= bs[i].start && bs[i].end <= bs[j].end)
  }

  // ----- recording -----

  /** Inserts into an ordered map: an entry with the same key is replaced. */
  function Insert(es: seq<(nat, Str)>, key: nat, loc: Str): seq<(nat, Str)>
    decreases |es|
  {
    if es == [] || key < es[0].0 then [(key, loc)] + es
    else if key == es[0].0 then [(key, loc)] + es[1..]
    else [es[0]] + Insert(es[1..], key, loc)
  }

  /** The map after the blocks have been recorded one after the other, each at the index behind it. */
  function Entries(bs: seq<Block>): seq<(nat, Str)>
    decreases |bs|
  {
    if bs == [] then [] else Insert(Entries(bs[..|bs| - 1]), bs[|bs| - 1].end, bs[|bs| - 1].loc)
  }

  lemma {:induction false} InsertIs(es: seq<(nat, Str)>, key: nat, loc: Str)
    requires Ascending(es)
    ensures Ascending(Insert(es, key, loc))
    ensures forall e :: e in Insert(es, key, loc) <==> e == (key, loc) || (e in es && e.0 != key)
    decreases |es|
  {
    if es != [] {
      assert es == [es[0]] + es[1..];
      if es[0].0 < key {
        InsertIs(es[1..], key, loc);
      }
    }
  }

  /** Block `k` is the last one recorded at its end. */
  ghost predicate Lasts(bs: seq<Block>, k: nat) {
    k < |bs| && forall j :: k < j < |bs| ==> bs[j].end != bs[k].end
  }

  /** The last block recorded at a place gives the entry there. */
  ghost predicate Recorded(bs: seq<Block>, e: (nat, Str)) {
    exists k: nat :: Lasts(bs, k) && e == (bs[k].end, bs[k].loc)
  }

  lemma LastsOneMore(bs: seq<Block>, b: Block, e: (nat, Str))
    ensures Recorded(bs + [b], e) <==> e == (b.end, b.loc) || (Recorded(bs, e) && e.0 != b.end)
  {
    var all := bs + [b];
    if e == (b.end, b.loc) {
      assert Lasts(all, |bs|);
    } else if Recorded(bs, e) && e.0 != b.end {
      var k: nat :| Lasts(bs, k) && e == (bs[k].end, bs[k].loc);
      assert Lasts(all, k);
    }
    if k: nat :| Lasts(all, k) && e == (all[k].end, all[k].loc) && k < |bs| {
      assert all[|bs|].end != all[k].end;
      forall j | k < j < |bs| ensures bs[j].end != bs[k].end {
        assert all[j].end != all[k].end;
      }
      assert Lasts(bs, k);
    }
  }

  lemma {:induction false} EntriesAre(bs: seq<Block>)
    ensures Ascending(Entries(bs))
    ensures forall e :: e in Entries(bs) <==> Recorded(bs, e)
    decreases |bs|
  {
    hide Recorded, Ascending, Insert;
    if bs == [] {
      NoEntries();
    } else {
      var front, b := bs[..|bs| - 1], bs[|bs| - 1];
      assert bs == front + [b];
      EntriesAre(front);
      InsertIs(Entries(front), b.end, b.loc);
      forall e ensures e in Entries(bs) <==> Recorded(bs, e) {
        LastsOneMore(front, b, e);
      }
    }
  }

  lemma NoEntries()
    ensures Ascending([]) && forall e :: !Recorded([], e)
  {
  }

  // ----- which block is named -----

  /** The last block recorded at the first end behind instruction `q`. */
  ghost predicate Named(bs: seq<Block>, q: nat, k: nat) {
    Lasts(bs, k) && q < bs[k].end && forall j :: 0 <= j < |bs| && q < bs[j].end ==> bs[k].end <= bs[j].end
  }

  lemma NamedIsExpected(bs: seq<Block>, q: nat, k: nat)
    requires Named(bs, q, k)
    ensures Expected(Entries(bs), q) == Some(bs[k].loc)
  {
    hide Entries, FirstBehind;
    EntriesAre(bs);
    var es, e := Entries(bs), (bs[k].end, bs[k].loc);
    assert e in es;
    var i :| 0 <= i < |es| && es[i] == e;
    var keys := seq(|es|, j requires 0 <= j < |es| => es[j].0);
    assert Recorded(bs, e);
    forall j | 0 <= j < i ensures keys[j] <= q {
      assert es[j] in es && es[j].0 < e.0;
      var n: nat :| Lasts(bs, n) && es[j] == (bs[n].end, bs[n].loc);
    }
    FirstBehindIs(keys, q, i);
  }

  /** Block `i` is the innermost one that instruction `q` belongs to. */
  ghost predicate Innermost(bs: seq<Block>, q: nat, i: nat) {
    i < |bs| && Covers(bs[i], q) && forall j :: 0 <= j < i ==> !Covers(bs[j], q)
  }

  /** Nothing comes between instruction `q` and the end of block `i`: no block behind the instruction ends before
      the block does, and no later block ends where it does. */
  ghost predicate Clear(bs: seq<Block>, q: nat, i: nat)
    requires i < |bs|
  {
    (forall j :: 0 <= j < |bs| && q < bs[j].start ==> bs[i].end <= bs[j].end) && Lasts(bs, i)
  }

  /** The innermost block of an instruction is the one named for it exactly if nothing comes between. */
  lemma InnermostIsNamed(bs: seq<Block>, q: nat, i: nat)
    requires InOrder(bs) && Innermost(bs, q, i)
    ensures Named(bs, q, i) <==> Clear(bs, q, i)
  {
    if Clear(bs, q, i) {
      forall j | 0 <= j < |bs| && q < bs[j].end ensures bs[i].end <= bs[j].end {
        if j < i {
          assert !Covers(bs[j], q);
        }
      }
    }
  }

  /** Two blocks that have different locations are told apart. */
  ghost predicate Distinct(bs: seq<Block>) {
    forall i, j :: 0 <= i < j < |bs| ==> bs[i].loc != bs[j].loc
  }

  lemma {:induction false} SomeNamed(bs: seq<Block>, q: nat, i: nat)
    requires i < |bs| && q < bs[i].end
    ensures exists k :: Named(bs, q, k)
    decreases bs[i].end, |bs| - i
  {
    if j :| 0 <= j < |bs| && q < bs[j].end < bs[i].end {
      SomeNamed(bs, q, j);
    } else if j :| i < j < |bs| && bs[j].end == bs[i].end {
      SomeNamed(bs, q, j);
    } else {
      assert Lasts(bs, i);
      assert Named(bs, q, i);
    }
  }

  /** The location recorded for an instruction is that of its innermost block if nothing comes between; and only then,
      where no two blocks have the same location. */
  lemma InnermostIsExpected(bs: seq<Block>, q: nat, i: nat)
    requires InOrder(bs) && Innermost(bs, q, i)
    ensures Clear(bs, q, i) ==> Expected(Entries(bs), q) == Some(bs[i].loc)
    ensures Distinct(bs) ==> (Expected(Entries(bs), q) == Some(bs[i].loc) <==> Clear(bs, q, i))
  {
    hide Expected, Entries, InOrder, Clear;
    InnermostIsNamed(bs, q, i);
    SomeNamed(bs, q, i);
    var k :| Named(bs, q, k);
    NamedIsExpected(bs, q, k);
    if Named(bs, q, i) {
      NamedIsExpected(bs, q, i);
    }
  }

  // ----- through the linker -----

  ghost predicate Within(es: seq<(nat, Str)>, n: nat) {
    forall i :: 0 <= i < |es| ==> es[i].0 < n
  }

  /** The recorded locations at the addresses of their instructions. */
  function Placed(es: seq<(nat, Str)>, positions: seq<nat>): seq<(nat, Str)> {
    seq(|es|, i requires 0 <= i < |es| =>
          (if es[i].0 < |positions| then positions[es[i].0] else es[i].0, es[i].1))
  }

  lemma {:induction false} PositionsAscend(prog: seq<Instruction>, code: seq<Byte>, data: seq<Byte>,
                                           positions: seq<nat>, a: nat, b: nat)
    requires Represents(prog, code, data, positions) && a < b < |prog|
    ensures |positions| == |prog| && positions[a] < EndOf(positions, a, |code|) <= positions[b]
    decreases b
  {
    hide Represents;
    OneAfterTheOther(prog, code, data, positions, a);
    if a + 1 < b {
      PositionsAscend(prog, code, data, positions, a, b - 1);
      OneAfterTheOther(prog, code, data, positions, b - 1);
    }
  }

  lemma OneAfterTheOther(prog: seq<Instruction>, code: seq<Byte>, data: seq<Byte>, positions: seq<nat>, a: nat)
    requires Represents(prog, code, data, positions) && a < |prog|
    ensures |positions| == |prog| && positions[a] < EndOf(positions, a, |code|)
  {
    hide ReadInstruction, Retarget;
  }

  /** The linker keeps which location stands first behind an instruction: an address anywhere in an instruction asks
      for what was recorded for its index. */
  lemma PlacedIsExpected(prog: seq<Instruction>, code: seq<Byte>, data: seq<Byte>, positions: seq<nat>,
                         es: seq<(nat, Str)>, q: nat, pos: nat)
    requires Represents(prog, code, data, positions) && |positions| == |prog| && Ascending(es) && Within(es, |prog|)
    requires q < |prog| && positions[q] <= pos < EndOf(positions, q, |code|)
    ensures Ascending(Placed(es, positions)) && Expected(Placed(es, positions), pos) == Expected(es, q)
  {
    hide FirstBehind, Represents;
    var ps := Placed(es, positions);
    forall i, j | 0 <= i < j < |ps| ensures ps[i].0 < ps[j].0 {
      PositionsAscend(prog, code, data, positions, es[i].0, es[j].0);
    }
    var keys := seq(|es|, k requires 0 <= k < |es| => es[k].0);
    var places := seq(|ps|, k requires 0 <= k < |ps| => ps[k].0);
    var i := FirstBehind(keys, q);
    FirstBehindFinds(keys, q);
    forall j | 0 <= j < i ensures places[j] <= pos {
      assert keys[j] <= q;
      if es[j].0 < q {
        PositionsAscend(prog, code, data, positions, es[j].0, q);
      }
    }
    if i < |ps| {
      assert q < keys[i];
      PositionsAscend(prog, code, data, positions, q, es[i].0);
    }
    FirstBehindIs(places, pos, i);
  }

  lemma {:induction false} FirstBehindFinds(keys: seq<nat>, q: nat)
    ensures var i := FirstBehind(keys, q);
            (forall j :: 0 <= j < i ==> keys[j] <= q) && (i < |keys| ==> q < keys[i])
    decreases |keys|
  {
    if keys != [] && keys[0] <= q {
      FirstBehindFinds(keys[1..], q);
    }
  }

  ghost predicate AllFaithful(t: Table, locs: seq<(nat, Str)>, numbers: seq<seq<Isize>>) {
    forall i :: 0 <= i < |locs| && i < |numbers| ==> Faithful(t, locs[i].1, numbers[i])
  }

  /** From blocks to addresses and back: looking up any address in a linked instruction gives the innermost block
      that the instruction belongs to if nothing comes between; and only then, where no two blocks have the same
      location. */
  lemma BlockIsFound(prog: seq<Instruction>, code: seq<Byte>, data: seq<Byte>, positions: seq<nat>, bs: seq<Block>,
                     t: Table, numbers: seq<seq<Isize>>, q: nat, pos: nat, i: nat)
    requires Represents(prog, code, data, positions) && |positions| == |prog|
    requires InOrder(bs) && Within(Entries(bs), |prog|)
    requires Condenses(t, Placed(Entries(bs), positions), numbers)
    requires AllFaithful(t, Placed(Entries(bs), positions), numbers)
    requires q < |prog| && positions[q] <= pos < EndOf(positions, q, |code|) && Innermost(bs, q, i)
    ensures forall i :: 0 <= i < |t.locs| ==> t.locs[i].1 <= |t.tokens|
    ensures Clear(bs, q, i) ==> Found(t, pos) == Some(bs[i].loc)
    ensures Distinct(bs) ==> (Found(t, pos) == Some(bs[i].loc) <==> Clear(bs, q, i))
  {
    hide Represents, Condenses, Faithful, Entries, Expected, Found, FirstBehind, Clear, InOrder, Distinct, Within;
    var locs := Placed(Entries(bs), positions);
    EntriesAre(bs);
    LookupIsExpected(t, locs, numbers, pos);
    PlacedIsExpected(prog, code, data, positions, Entries(bs), q, pos);
    InnermostIsExpected(bs, q, i);
  }

  /** The wrong block can be named. In "if a, set x to b", where all four blocks have locations, an error at the
      conditional jump is reported at the variable "b", and one at the assignment is reported at the whole block. */
  lemma WrongBlock(g: Scope, a: Str, b: Str, x: Str, locs: seq<Str>)
    requires |locs| == 4
    ensures var code := [Ins(PushVariable(a)), Ins(ConditionalJump(4, false)), Ins(PushVariable(b)), Ins(Assign(x))];
            StmtAt(g, code, If(Variable(a), [SetVar(x, Variable(b))]), 0)
    ensures var bs := [Block(0, 1, locs[0]), Block(2, 3, locs[1]), Block(2, 4, locs[2]), Block(0, 4, locs[3])];
            && InOrder(bs)
            && Innermost(bs, 1, 3) && Expected(Entries(bs), 1) == Some(locs[1])
            && Innermost(bs, 3, 2) && Expected(Entries(bs), 3) == Some(locs[3])
  {
    hide Entries, Expected, StmtAt;
    var bs := [Block(0, 1, locs[0]), Block(2, 3, locs[1]), Block(2, 4, locs[2]), Block(0, 4, locs[3])];
    assert Lasts(bs, 1) && Named(bs, 1, 1);
    NamedIsExpected(bs, 1, 1);
    assert Lasts(bs, 3) && Named(bs, 3, 3);
    NamedIsExpected(bs, 3, 3);
    BranchCode(g, a, b, x);
  }

  lemma BranchCode(g: Scope, a: Str, b: Str, x: Str)
    ensures var code := [Ins(PushVariable(a)), Ins(ConditionalJump(4, false)), Ins(PushVariable(b)), Ins(Assign(x))];
            StmtAt(g, code, If(Variable(a), [SetVar(x, Variable(b))]), 0)
  {
    hide LitAt, LitsAt, ShortAt, Are, Callable, ForAt, RangeAt, RoundsAt, ExprsAt, ExprsLen, LitLen, Lower;
    hide LowerDo, DeclaresAt, Hole;
    var code := [Ins(PushVariable(a)), Ins(ConditionalJump(4, false)), Ins(PushVariable(b)), Ins(Assign(x))];
    var set_ := SetVar(x, Variable(b));
    assert StmtAt(g, code, set_, 2) && StmtLen(set_) == 2;
    assert [set_][1..] == [] && StmtsAt(g, code, [], 4);
    assert StmtsAt(g, code, [set_], 2) && StmtsLen([set_]) == 2;
  }
}
