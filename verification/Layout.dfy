/** The code stream seen as a list of chunks: fixed bytes and relocation holes. */
module Layout {
  import opened Common
  import opened Varint
  import opened Bytecode
  import opened Codec

  /** Byte address of chunk `k`. */
  function Addr(cs: seq<seq<Byte>>, k: nat): nat
    requires k <= |cs|
  {
    if k == 0 then 0 else Addr(cs, k - 1) + |cs[k - 1]|
  }

  lemma {:induction false} FlatAppend(xs: seq<seq<Byte>>, ys: seq<seq<Byte>>)
    ensures Flat(xs + ys) == Flat(xs) + Flat(ys)
  {
    if xs == [] {
      assert xs + ys == ys;
    } else {
      FlatAppend(xs[1..], ys);
      assert (xs + ys)[1..] == xs[1..] + ys && (xs + ys)[0] == xs[0];
      assert xs[0] + (Flat(xs[1..]) + Flat(ys)) == xs[0] + Flat(xs[1..]) + Flat(ys);
    }
  }

  lemma {:induction false} AddrPrefix(cs: seq<seq<Byte>>, ds: seq<seq<Byte>>, k: nat)
    requires k <= |cs| && k <= |ds| && cs[..k] == ds[..k]
    ensures Addr(cs, k) == Addr(ds, k)
    decreases k
  {
    if k > 0 {
      assert cs[..k - 1] == cs[..k][..k - 1] == ds[..k][..k - 1] == ds[..k - 1];
      assert cs[k - 1] == cs[..k][k - 1] == ds[..k][k - 1];
      AddrPrefix(cs, ds, k - 1);
    }
  }

  lemma {:induction false} FlatLength(cs: seq<seq<Byte>>)
    ensures |Flat(cs)| == Addr(cs, |cs|)
  {
    if cs != [] {
      var front := cs[..|cs| - 1];
      assert cs == front + [cs[|cs| - 1]];
      FlatAppend(front, [cs[|cs| - 1]]);
      assert Flat([cs[|cs| - 1]]) == cs[|cs| - 1] + Flat([]) == cs[|cs| - 1];
      FlatLength(front);
      AddrPrefix(cs, front, |front|);
    }
  }

  lemma {:induction false} AddrMonotone(cs: seq<seq<Byte>>, j: nat, k: nat)
    requires j <= k <= |cs|
    ensures Addr(cs, j) <= Addr(cs, k)
    decreases k
  {
    if j < k {
      AddrMonotone(cs, j, k - 1);
    }
  }

  /** A run of chunks is the corresponding stretch of bytes. */
  lemma FlatSlice(cs: seq<seq<Byte>>, j: nat, k: nat)
    requires j <= k <= |cs|
    ensures Addr(cs, j) <= Addr(cs, k) <= |Flat(cs)|
    ensures Flat(cs)[Addr(cs, j)..Addr(cs, k)] == Flat(cs[j..k])
  {
    hide *;
    AddrMonotone(cs, j, k);
    AddrMonotone(cs, k, |cs|);
    FlatLength(cs);
    var a, b, c := cs[..j], cs[j..k], cs[k..];
    assert cs == a + b + c;
    FlatAppend(a + b, c);
    FlatAppend(a, b);
    FlatLength(a);
    AddrPrefix(cs, a, j);
    FlatLength(a + b);
    AddrPrefix(cs, a + b, k);
    var x, y, z := Flat(a), Flat(b), Flat(c);
    assert Flat(cs) == x + y + z;
    assert (x + y + z)[|x|..|x| + |y|] == y;
  }

  /** A chunk can be found at its address. */
  lemma FlatAt(cs: seq<seq<Byte>>, k: nat)
    requires k < |cs|
    ensures Holds(Flat(cs), Addr(cs, k), cs[k])
  {
    FlatSlice(cs, k, k + 1);
    assert cs[k..k + 1] == [cs[k]];
    assert Flat([cs[k]]) == cs[k] + Flat([]) == cs[k];
  }

  /** Overwriting a chunk in place, keeping its size. */
  lemma FlatReplace(cs: seq<seq<Byte>>, k: nat, c: seq<Byte>)
    requires k < |cs| && |c| == |cs[k]|
    ensures Addr(cs, k) + |c| <= |Flat(cs)|
    ensures Flat(cs[k := c]) == Flat(cs)[..Addr(cs, k)] + c + Flat(cs)[Addr(cs, k) + |c|..]
    ensures forall i :: 0 <= i <= |cs| ==> Addr(cs[k := c], i) == Addr(cs, i)
  {
    var a, b := cs[..k], cs[k + 1..];
    assert cs == a + [cs[k]] + b;
    assert cs[k := c] == a + [c] + b;
    FlatAppend(a + [cs[k]], b);
    FlatAppend(a, [cs[k]]);
    FlatAppend(a + [c], b);
    FlatAppend(a, [c]);
    assert Flat([cs[k]]) == cs[k] + Flat([]) == cs[k];
    assert Flat([c]) == c + Flat([]) == c;
    FlatLength(a);
    AddrPrefix(cs, a, k);
    forall i | 0 <= i <= |cs| ensures Addr(cs[k := c], i) == Addr(cs, i) {
      AddrReplace(cs, k, c, i);
    }
  }

  lemma {:induction false} AddrReplace(cs: seq<seq<Byte>>, k: nat, c: seq<Byte>, i: nat)
    requires k < |cs| && |c| == |cs[k]| && i <= |cs|
    ensures Addr(cs[k := c], i) == Addr(cs, i)
    decreases i
  {
    if i > 0 {
      AddrReplace(cs, k, c, i - 1);
    }
  }

  // ----- the pieces of a program -----

  /** What stands at a chunk: fixed bytes, the address of an instruction, or the place of a text. */
  datatype Piece = Lit(bytes: seq<Byte>) | CodeHole(target: nat) | TextHole(text: Str)

  function OperandPieces(o: Operand): seq<Piece> {
    match o
    case Address(target) => [CodeHole(target)]
    case Text(text) => [TextHole(text), Lit(Minimal(|text|))]
    case _ => [Lit(PlainBytes(o))]
  }

  function OperandsPieces(xs: seq<Operand>): seq<Piece> {
    if xs == [] then [] else OperandPieces(xs[0]) + OperandsPieces(xs[1..])
  }

  function InstructionPieces(ins: Instruction): seq<Piece> {
    [Lit([Opcode(ins)])] + OperandsPieces(Operands(ins))
  }

  function Pieces(prog: seq<Instruction>): seq<Piece> {
    if prog == [] then [] else Pieces(prog[..|prog| - 1]) + InstructionPieces(prog[|prog| - 1])
  }

  /** Index of the first chunk of instruction `i`. */
  function First(prog: seq<Instruction>, i: nat): nat
    requires i <= |prog|
  {
    |Pieces(prog[..i])|
  }

  lemma {:induction false} PiecesPrefix(prog: seq<Instruction>, i: nat)
    requires i <= |prog|
    ensures Pieces(prog[..i]) <= Pieces(prog)
    decreases |prog| - i
  {
    hide Opcode, Operands;
    if i == |prog| {
      assert prog[..i] == prog;
    } else {
      PiecesPrefix(prog, i + 1);
      assert prog[..i + 1][..i] == prog[..i];
      assert Pieces(prog[..i + 1]) == Pieces(prog[..i]) + InstructionPieces(prog[i]);
    }
  }

  /** The chunks of instruction `i` are a contiguous run. */
  lemma InstructionRun(prog: seq<Instruction>, i: nat)
    requires i < |prog|
    ensures First(prog, i + 1) == First(prog, i) + |InstructionPieces(prog[i])| <= |Pieces(prog)|
    ensures Pieces(prog)[First(prog, i)..First(prog, i + 1)] == InstructionPieces(prog[i])
  {
    hide Opcode, Operands;
    assert prog[..i + 1][..i] == prog[..i];
    assert Pieces(prog[..i + 1]) == Pieces(prog[..i]) + InstructionPieces(prog[i]);
    PiecesPrefix(prog, i + 1);
    var p := Pieces(prog[..i + 1]);
    assert Pieces(prog)[..|p|] == p;
    assert Pieces(prog)[First(prog, i)..|p|] == p[First(prog, i)..];
  }

  // ----- what a linked chunk holds -----

  /** A chunk codes what its piece asks for: for a code hole, the position of the target. */
  ghost predicate Linked(p: Piece, c: seq<Byte>, data: seq<Byte>, positions: seq<nat>) {
    match p
    case Lit(bytes) => c == bytes
    case CodeHole(target) =>
      target < |positions| && positions[target] < U64_RANGE && Groups(positions[target]) <= |c|
        && c == Padded(positions[target], |c|)
    case TextHole(text) => NamesText(c, data, text)
  }

  ghost predicate AllLinked(ps: seq<Piece>, cs: seq<seq<Byte>>, data: seq<Byte>, positions: seq<nat>) {
    |cs| == |ps| && forall k :: 0 <= k < |ps| ==> Linked(ps[k], cs[k], data, positions)
  }

  /** Positions are the addresses of the first chunks. */
  ghost predicate Placed(prog: seq<Instruction>, cs: seq<seq<Byte>>, positions: seq<nat>) {
    && |cs| == |Pieces(prog)|
    && |positions| == |prog|
    && forall i :: 0 <= i < |prog| ==> First(prog, i) <= |cs| && positions[i] == Addr(cs, First(prog, i))
  }

  /** An instruction with its code operand replaced by the position of its target. */
  function Retarget(ins: Instruction, positions: seq<nat>): Instruction {
    match ins
    case ListPopFirstOrElse(goto) => ListPopFirstOrElse(Position(positions, goto))
    case Jump(to) => Jump(Position(positions, to))
    case ConditionalJump(to, when_) => ConditionalJump(Position(positions, to), when_)
    case Call(pos, tokens) => Call(Position(positions, pos), tokens)
    case MakeClosure(pos, params, tokens) => MakeClosure(Position(positions, pos), params, tokens)
    case PushHandler(pos, name) => PushHandler(Position(positions, pos), name)
    case _ => ins
  }

  /** The code operand of an instruction, if it has one, names an instruction. */
  predicate Aims(ins: Instruction, n: int) {
    && (ins.ListPopFirstOrElse? ==> ins.goto < n)
    && (ins.Jump? || ins.ConditionalJump? ==> ins.to < n)
    && (ins.Call? || ins.MakeClosure? || ins.PushHandler? ==> ins.pos < n)
  }

  function Position(positions: seq<nat>, i: nat): nat {
    if i < |positions| then positions[i] else i
  }

  function RetargetOperand(o: Operand, positions: seq<nat>): Operand {
    if o.Address? then Address(Position(positions, o.target)) else o
  }

  function RetargetOperands(xs: seq<Operand>, positions: seq<nat>): (ys: seq<Operand>)
    ensures |ys| == |xs|
    ensures forall i :: 0 <= i < |xs| ==> ys[i] == RetargetOperand(xs[i], positions)
  {
    if xs == [] then [] else [RetargetOperand(xs[0], positions)] + RetargetOperands(xs[1..], positions)
  }

  /** Retargeting touches only the address operands. */
  lemma RetargetParts(ins: Instruction, positions: seq<nat>)
    ensures Opcode(Retarget(ins, positions)) == Opcode(ins)
    ensures Operands(Retarget(ins, positions)) == RetargetOperands(Operands(ins), positions)
  {
    var xs := Operands(ins);
    if ins.ListPopFirstOrElse? || ins.Jump? || ins.ConditionalJump? || ins.Call? || ins.MakeClosure?
      || ins.PushHandler? {
      assert Operands(Retarget(ins, positions)) == RetargetOperands(xs, positions);
    } else {
      NoAddress(ins);
      assert RetargetOperands(xs, positions) == xs;
    }
  }

  lemma NoAddress(ins: Instruction)
    requires !(ins.ListPopFirstOrElse? || ins.Jump? || ins.ConditionalJump? || ins.Call? || ins.MakeClosure?
               || ins.PushHandler?)
    ensures forall i :: 0 <= i < |Operands(ins)| ==> !Operands(ins)[i].Address?
  {}
}
