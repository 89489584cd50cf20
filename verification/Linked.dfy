/** A linked code stream reads back as the program it was linked from. */
module LinkedCode {
  import opened Common
  import opened Varint
  import opened Bytecode
  import opened Codec
  import opened Layout

  /** The chunks of each operand joined together. */
  function Grouped(xs: seq<Operand>, cs: seq<seq<Byte>>): (gs: seq<seq<Byte>>)
    requires |cs| == |OperandsPieces(xs)|
    ensures |gs| == |xs|
    decreases |xs|
  {
    if xs == [] then []
    else if xs[0].Text? then [cs[0] + cs[1]] + Grouped(xs[1..], cs[2..])
    else [cs[0]] + Grouped(xs[1..], cs[1..])
  }

  lemma {:induction false} GroupedFlat(xs: seq<Operand>, cs: seq<seq<Byte>>)
    requires |cs| == |OperandsPieces(xs)|
    ensures Flat(Grouped(xs, cs)) == Flat(cs)
    decreases |xs|
  {
    if xs == [] {
    } else if xs[0].Text? {
      var rest := cs[2..];
      GroupedFlat(xs[1..], rest);
      assert cs[1..][1..] == rest;
      assert Flat(cs) == cs[0] + (cs[1] + Flat(rest));
      assert Grouped(xs, cs)[1..] == Grouped(xs[1..], rest);
    } else {
      GroupedFlat(xs[1..], cs[1..]);
      assert Grouped(xs, cs)[1..] == Grouped(xs[1..], cs[1..]);
    }
  }

  /** A linked operand chunk codes the retargeted operand. */
  lemma LinkedOperand(o: Operand, c: seq<Byte>, data: seq<Byte>, positions: seq<nat>)
    requires Storable(o) && !o.Text?
    requires Linked(OperandPieces(o)[0], c, data, positions)
    ensures Storable(RetargetOperand(o, positions)) && Encodes(c, data, RetargetOperand(o, positions))
  {}

  lemma LinkedText(text: Str, c: seq<Byte>, d: seq<Byte>, data: seq<Byte>, positions: seq<nat>)
    requires Storable(Text(text))
    requires Linked(TextHole(text), c, data, positions) && Linked(Lit(Minimal(|text|)), d, data, positions)
    ensures Encodes(c + d, data, Text(text))
  {
    assert c + d == c + Minimal(|text|);
  }

  predicate AllStorable(xs: seq<Operand>) {
    forall i :: 0 <= i < |xs| ==> Storable(xs[i])
  }

  lemma LinkedTail(ps: seq<Piece>, cs: seq<seq<Byte>>, data: seq<Byte>, positions: seq<nat>, j: nat, k: nat)
    requires AllLinked(ps, cs, data, positions) && j <= k <= |ps|
    ensures AllLinked(ps[j..k], cs[j..k], data, positions)
  {
    forall i | 0 <= i < k - j ensures Linked(ps[j..k][i], cs[j..k][i], data, positions) {
      assert Linked(ps[j + i], cs[j + i], data, positions);
    }
  }

  lemma {:induction false} LinkedOperands(xs: seq<Operand>, cs: seq<seq<Byte>>, data: seq<Byte>, positions: seq<nat>)
    requires AllStorable(xs)
    requires AllLinked(OperandsPieces(xs), cs, data, positions)
    ensures EncodesAll(Grouped(xs, cs), data, RetargetOperands(xs, positions))
    decreases |xs|
  {
    if xs != [] {
      var ps := OperandsPieces(xs);
      var n := if xs[0].Text? then 2 else 1;
      assert ps[n..] == OperandsPieces(xs[1..]);
      LinkedTail(ps, cs, data, positions, n, |ps|);
      assert ps[n..|ps|] == ps[n..] && cs[n..|ps|] == cs[n..];
      LinkedOperands(xs[1..], cs[n..], data, positions);
      assert Linked(ps[0], cs[0], data, positions);
      if xs[0].Text? {
        assert Linked(ps[1], cs[1], data, positions);
        LinkedText(xs[0].text, cs[0], cs[1], data, positions);
      } else {
        LinkedOperand(xs[0], cs[0], data, positions);
      }
      var gs, ys := Grouped(xs, cs), RetargetOperands(xs, positions);
      assert gs[1..] == Grouped(xs[1..], cs[n..]);
      assert ys[1..] == RetargetOperands(xs[1..], positions);
    }
  }

  /** The operands of every instruction can be stored, and every code operand names an instruction. */
  ghost predicate Linkable(prog: seq<Instruction>) {
    forall i :: 0 <= i < |prog| ==> AllStorable(Operands(prog[i])) && TargetsBelow(Operands(prog[i]), |prog|)
  }

  ghost predicate TargetsBelow(xs: seq<Operand>, n: nat) {
    forall j :: 0 <= j < |xs| && xs[j].Address? ==> xs[j].target < n
  }

  /** Where instruction `i` ends. */
  function EndOf(positions: seq<nat>, i: nat, size: nat): nat {
    if i + 1 < |positions| then positions[i + 1] else size
  }

  /** The linked form of a program: reading the instruction at each position gives the original one
      with its code operand replaced by the position of its target, and stops at the next position. */
  ghost predicate Represents(prog: seq<Instruction>, code: seq<Byte>, data: seq<Byte>, positions: seq<nat>) {
    && |positions| == |prog|
    && (prog == [] ==> code == [])
    && (prog != [] ==> positions[0] == 0)
    && forall i :: 0 <= i < |prog| ==>
         && positions[i] < EndOf(positions, i, |code|)
         && ReadInstruction(code, data, positions[i])
             == Some((Retarget(prog[i], positions), EndOf(positions, i, |code|)))
  }

  lemma LinkedHead(op: Byte, xs: seq<Operand>, code: seq<Byte>, start: nat, cs: seq<seq<Byte>>, data: seq<Byte>,
                   positions: seq<nat>)
    requires AllStorable(xs)
    requires AllLinked([Lit([op])] + OperandsPieces(xs), cs, data, positions)
    requires Holds(code, start, Flat(cs))
    ensures |cs| >= 1
    ensures start < |code| && code[start] == op && |Flat(cs)| == 1 + |Flat(cs[1..])|
    ensures Holds(code, start + 1, Flat(cs[1..]))
    ensures AllLinked(OperandsPieces(xs), cs[1..], data, positions)
  {
    var ps, n := [Lit([op])] + OperandsPieces(xs), |cs|;
    assert ps[1..n] == OperandsPieces(xs);
    assert Linked(ps[0], cs[0], data, positions);
    LinkedTail(ps, cs, data, positions, 1, n);
    assert cs[1..n] == cs[1..];
    HoldsParts(code, start, cs[0], Flat(cs[1..]));
    assert code[start] == code[start..start + 1][0];
  }

  lemma LinkedParts(op: Byte, xs: seq<Operand>, ins: Instruction, code: seq<Byte>, start: nat, cs: seq<seq<Byte>>,
                    data: seq<Byte>, positions: seq<nat>)
    requires AllStorable(xs)
    requires Shaped(op, RetargetOperands(xs, positions)) && Build(op, RetargetOperands(xs, positions)) == Some(ins)
    requires AllLinked([Lit([op])] + OperandsPieces(xs), cs, data, positions)
    requires Holds(code, start, Flat(cs))
    ensures ReadInstruction(code, data, start) == Some((ins, start + |Flat(cs)|))
    ensures |Flat(cs)| >= 1
  {
    hide *;
    LinkedHead(op, xs, code, start, cs, data, positions);
    LinkedOperands(xs, cs[1..], data, positions);
    GroupedFlat(xs, cs[1..]);
    ReadPartsBack(code, data, start, Grouped(xs, cs[1..]), op, RetargetOperands(xs, positions), ins);
  }

  lemma RetargetBuilds(ins: Instruction, positions: seq<nat>)
    ensures Shaped(Opcode(ins), RetargetOperands(Operands(ins), positions))
    ensures Build(Opcode(ins), RetargetOperands(Operands(ins), positions)) == Some(Retarget(ins, positions))
  {
    hide *;
    RetargetParts(ins, positions);
    TableAgrees(Retarget(ins, positions));
  }

  lemma LinkedInstruction(ins: Instruction, code: seq<Byte>, start: nat, cs: seq<seq<Byte>>, data: seq<Byte>,
                          positions: seq<nat>)
    requires AllStorable(Operands(ins))
    requires AllLinked(InstructionPieces(ins), cs, data, positions)
    requires Holds(code, start, Flat(cs))
    ensures ReadInstruction(code, data, start) == Some((Retarget(ins, positions), start + |Flat(cs)|))
    ensures |Flat(cs)| >= 1
  {
    RetargetBuilds(ins, positions);
    LinkedParts(Opcode(ins), Operands(ins), Retarget(ins, positions), code, start, cs, data, positions);
  }

  lemma EndOfInstruction(prog: seq<Instruction>, cs: seq<seq<Byte>>, positions: seq<nat>, i: nat)
    requires Placed(prog, cs, positions) && i < |prog|
    ensures First(prog, i + 1) <= |cs| && EndOf(positions, i, |Flat(cs)|) == Addr(cs, First(prog, i + 1))
  {
    hide Opcode, Operands;
    InstructionRun(prog, i);
    if i + 1 == |prog| {
      assert prog[..i + 1] == prog;
      FlatLength(cs);
    }
  }

  lemma RunAt(prog: seq<Instruction>, cs: seq<seq<Byte>>, data: seq<Byte>, positions: seq<nat>, i: nat)
    requires AllLinked(Pieces(prog), cs, data, positions) && Placed(prog, cs, positions)
    requires i < |prog|
    ensures First(prog, i) <= First(prog, i + 1) <= |cs|
    ensures |positions| == |prog|
    ensures AllLinked(InstructionPieces(prog[i]), cs[First(prog, i)..First(prog, i + 1)], data, positions)
    ensures Holds(Flat(cs), positions[i], Flat(cs[First(prog, i)..First(prog, i + 1)]))
    ensures positions[i] + |Flat(cs[First(prog, i)..First(prog, i + 1)])| == Addr(cs, First(prog, i + 1))
  {
    hide Opcode, Operands;
    InstructionRun(prog, i);
    var j, k := First(prog, i), First(prog, i + 1);
    LinkedTail(Pieces(prog), cs, data, positions, j, k);
    FlatSlice(cs, j, k);
  }

  lemma StorableAt(prog: seq<Instruction>, i: nat)
    requires Linkable(prog) && i < |prog|
    ensures AllStorable(Operands(prog[i]))
  {}

  lemma LinkedAt(prog: seq<Instruction>, cs: seq<seq<Byte>>, data: seq<Byte>, positions: seq<nat>, i: nat)
    requires Linkable(prog) && AllLinked(Pieces(prog), cs, data, positions) && Placed(prog, cs, positions)
    requires i < |prog|
    ensures positions[i] < EndOf(positions, i, |Flat(cs)|)
    ensures ReadInstruction(Flat(cs), data, positions[i])
            == Some((Retarget(prog[i], positions), EndOf(positions, i, |Flat(cs)|)))
  {
    hide *;
    var j, k := First(prog, i), First(prog, i + 1);
    StorableAt(prog, i);
    RunAt(prog, cs, data, positions, i);
    EndOfInstruction(prog, cs, positions, i);
    LinkedInstruction(prog[i], Flat(cs), positions[i], cs[j..k], data, positions);
  }

  /** Chunks that are all linked and placed represent the program. */
  lemma LinkedRepresents(prog: seq<Instruction>, cs: seq<seq<Byte>>, data: seq<Byte>, positions: seq<nat>)
    requires Linkable(prog)
    requires AllLinked(Pieces(prog), cs, data, positions)
    requires Placed(prog, cs, positions)
    ensures Represents(prog, Flat(cs), data, positions)
  {
    hide Build, Opcode, Operands;
    forall i | 0 <= i < |prog|
      ensures positions[i] < EndOf(positions, i, |Flat(cs)|)
      ensures ReadInstruction(Flat(cs), data, positions[i])
              == Some((Retarget(prog[i], positions), EndOf(positions, i, |Flat(cs)|)))
    {
      LinkedAt(prog, cs, data, positions, i);
    }
    if prog != [] {
      assert prog[..0] == [];
    }
  }

  /** Decoding the whole stream from a position on, instruction after instruction. */
  function Decode(code: seq<Byte>, data: seq<Byte>, start: nat): Option<seq<Instruction>>
    decreases |code| - start
  {
    if start == |code| then Some([])
    else
      var r := ReadInstruction(code, data, start);
      if r.None? || r.value.1 <= start || r.value.1 > |code| then None
      else
        var rest := Decode(code, data, r.value.1);
        if rest.None? then None else Some([r.value.0] + rest.value)
  }

  function RetargetAll(prog: seq<Instruction>, positions: seq<nat>): (r: seq<Instruction>)
    ensures |r| == |prog|
    ensures forall i :: 0 <= i < |prog| ==> r[i] == Retarget(prog[i], positions)
  {
    if prog == [] then [] else [Retarget(prog[0], positions)] + RetargetAll(prog[1..], positions)
  }

  lemma {:induction false} DecodeFrom(prog: seq<Instruction>, code: seq<Byte>, data: seq<Byte>, positions: seq<nat>,
                                      i: nat)
    requires Represents(prog, code, data, positions) && i < |prog|
    requires forall j :: 0 <= j < |prog| ==> EndOf(positions, j, |code|) <= |code|
    ensures Decode(code, data, positions[i]) == Some(RetargetAll(prog[i..], positions))
    decreases |prog| - i
  {
    var aft := EndOf(positions, i, |code|);
    assert ReadInstruction(code, data, positions[i]) == Some((Retarget(prog[i], positions), aft));
    if i + 1 < |prog| {
      DecodeFrom(prog, code, data, positions, i + 1);
    }
    assert prog[i..][1..] == prog[i + 1..];
    assert positions[i] < aft <= |code|;
  }

  lemma {:induction false} EndsInside(prog: seq<Instruction>, code: seq<Byte>, data: seq<Byte>, positions: seq<nat>,
                                      j: nat)
    requires Represents(prog, code, data, positions) && j < |prog|
    ensures EndOf(positions, j, |code|) <= |code|
    decreases |prog| - j
  {
    hide ReadInstruction;
    if j + 1 < |prog| {
      EndsInside(prog, code, data, positions, j + 1);
      assert positions[j + 1] < EndOf(positions, j + 1, |code|);
    }
  }

  /** Linking preserves the program: decoding the bytes from zero yields the same instructions in
      order, each code operand being the byte start of the instruction it named. */
  lemma DecodesToProgram(prog: seq<Instruction>, code: seq<Byte>, data: seq<Byte>, positions: seq<nat>)
    requires Represents(prog, code, data, positions)
    ensures Decode(code, data, 0) == Some(RetargetAll(prog, positions))
  {
    hide ReadInstruction;
    if prog != [] {
      forall j | 0 <= j < |prog| ensures EndOf(positions, j, |code|) <= |code| {
        EndsInside(prog, code, data, positions, j);
      }
      DecodeFrom(prog, code, data, positions, 0);
      assert prog[0..] == prog;
    }
  }
}
