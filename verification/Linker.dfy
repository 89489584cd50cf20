/** Linking: instructions are emitted with wide relocation holes holding instruction indices, then the
    holes are rewritten to byte addresses and shrunk in place over several cycles. */
module Linker {
  import opened Common
  import opened Varint
  import opened Bytecode
  import opened Codec
  import opened Layout
  import opened LinkedCode
  import opened Shrinking
  import opened Relaxation

  /** Maximum number of shrinking cycles after the first pass. */
  const SHRINK_CYCLES: nat := 3

  datatype RelocateInfo = CodeInfo(addr: nat) | DataInfo(addr: nat)

  datatype Slice = Slice(src: nat, start: nat)

  /** The pool of texts, by contract: `index(i, j)` is what adding the text of operand `j` of
      instruction `i` returned; each index denotes a slice of some backing buffer. */
  datatype Pool = Pool(index: (nat, nat) -> nat, backing: seq<seq<Byte>>, slices: seq<Slice>)

  ghost predicate Denotes(pool: Pool, id: nat, text: Str) {
    && id < |pool.slices|
    && var s := pool.slices[id];
       s.src < |pool.backing| && s.start + |text| <= |pool.backing[s.src]|
       && pool.backing[s.src][s.start..s.start + |text|] == text
  }

  /** Every text of the program was added, and its index denotes exactly the added bytes. */
  ghost predicate Serves(pool: Pool, prog: seq<Instruction>) {
    && |pool.slices| < U64_RANGE
    && forall i, j :: 0 <= i < |prog| && 0 <= j < |Operands(prog[i])| && Operands(prog[i])[j].Text? ==>
         Denotes(pool, pool.index(i, j), Operands(prog[i])[j].text)
  }

  function PieceSize(p: Piece): nat {
    match p case Lit(bytes) => |bytes| case _ => MAX_U64_ENCODED_BYTES
  }

  /** Size of a program as first emitted. */
  function Size(ps: seq<Piece>): nat {
    if ps == [] then 0 else Size(ps[..|ps| - 1]) + PieceSize(ps[|ps| - 1])
  }

  function PoolSize(backing: seq<seq<Byte>>): nat {
    if backing == [] then 0 else PoolSize(backing[..|backing| - 1]) + |backing[|backing| - 1]|
  }

  // ----- emission -----

  /** A chunk as first emitted: holes are ten bytes wide and hold an index. */
  ghost predicate Raw(p: Piece, c: seq<Byte>, pool: Pool) {
    match p
    case Lit(bytes) => c == bytes && |c| >= 1
    case CodeHole(target) =>
      target < U64_RANGE && Groups(target) <= MAX_U64_ENCODED_BYTES && c == Padded(target, MAX_U64_ENCODED_BYTES)
    case TextHole(text) => exists id: U64 :: RawText(c, pool, id, text)
  }

  ghost predicate RawText(c: seq<Byte>, pool: Pool, id: U64, text: Str) {
    Denotes(pool, id, text) && Groups(id) <= MAX_U64_ENCODED_BYTES && c == Padded(id, MAX_U64_ENCODED_BYTES)
  }

  ghost predicate AllRaw(ps: seq<Piece>, cs: seq<seq<Byte>>, pool: Pool) {
    |cs| == |ps| && forall k :: 0 <= k < |ps| ==> Raw(ps[k], cs[k], pool)
  }

  /** The holes are exactly the chunks that are not fixed bytes. */
  ghost predicate AllHoles(ps: seq<Piece>, holes: seq<nat>) {
    Indices(holes, |ps|) && forall k :: 0 <= k < |ps| ==> (k in holes <==> !ps[k].Lit?)
  }

  ghost predicate CodeHoles(ps: seq<Piece>, holes: seq<nat>) {
    Indices(holes, |ps|) && forall k :: 0 <= k < |ps| ==> (k in holes <==> ps[k].CodeHole?)
  }

  /** The relocation records list the holes in order with their addresses and kinds. */
  ghost predicate Recorded(ps: seq<Piece>, cs: seq<seq<Byte>>, holes: seq<nat>, infos: seq<RelocateInfo>) {
    && |cs| == |ps| && AllHoles(ps, holes) && |infos| == |holes|
    && forall i :: 0 <= i < |holes| ==>
         infos[i] == if ps[holes[i]].CodeHole? then CodeInfo(Addr(cs, holes[i])) else DataInfo(Addr(cs, holes[i]))
  }

  ghost predicate Emitted(ps: seq<Piece>, cs: seq<seq<Byte>>, holes: seq<nat>, infos: seq<RelocateInfo>,
                          code: seq<Byte>, pool: Pool) {
    code == Flat(cs) && AllRaw(ps, cs, pool) && Recorded(ps, cs, holes, infos) && |code| == Size(ps)
  }

  lemma RawSize(p: Piece, c: seq<Byte>, pool: Pool)
    requires Raw(p, c, pool)
    ensures |c| == PieceSize(p) >= 1
  {}

  lemma EmitBytes(ps: seq<Piece>, cs: seq<seq<Byte>>, code: seq<Byte>, pool: Pool, p: Piece, c: seq<Byte>)
    requires code == Flat(cs) && AllRaw(ps, cs, pool) && |code| == Size(ps) && Raw(p, c, pool)
    ensures code + c == Flat(cs + [c]) && AllRaw(ps + [p], cs + [c], pool) && |code + c| == Size(ps + [p])
  {
    hide Raw, PieceSize;
    FlatAppend(cs, [c]);
    assert Flat([c]) == c + Flat([]) == c;
    RawSize(p, c, pool);
    assert (ps + [p])[..|ps|] == ps;
  }

  lemma AddrSnoc(cs: seq<seq<Byte>>, c: seq<Byte>)
    ensures forall i :: 0 <= i <= |cs| ==> Addr(cs + [c], i) == Addr(cs, i)
  {
    forall i | 0 <= i <= |cs| ensures Addr(cs + [c], i) == Addr(cs, i) {
      assert (cs + [c])[..i] == cs[..i];
      AddrPrefix(cs + [c], cs, i);
    }
  }

  lemma RecordLit(ps: seq<Piece>, cs: seq<seq<Byte>>, holes: seq<nat>, infos: seq<RelocateInfo>, p: Piece, c: seq<Byte>)
    requires Recorded(ps, cs, holes, infos) && p.Lit?
    ensures Recorded(ps + [p], cs + [c], holes, infos)
  {
    AddrSnoc(cs, c);
  }

  lemma RecordHole(ps: seq<Piece>, cs: seq<seq<Byte>>, holes: seq<nat>, infos: seq<RelocateInfo>, p: Piece,
                   c: seq<Byte>)
    requires Recorded(ps, cs, holes, infos) && !p.Lit?
    ensures Recorded(ps + [p], cs + [c], holes + [|ps|],
                     infos + [if p.CodeHole? then CodeInfo(Addr(cs, |cs|)) else DataInfo(Addr(cs, |cs|))])
  {
    AddrSnoc(cs, c);
  }

  lemma EmitPiece(ps: seq<Piece>, cs: seq<seq<Byte>>, holes: seq<nat>, infos: seq<RelocateInfo>, code: seq<Byte>,
                  pool: Pool, p: Piece, c: seq<Byte>)
    requires Emitted(ps, cs, holes, infos, code, pool) && Raw(p, c, pool)
    ensures p.Lit? ==> Emitted(ps + [p], cs + [c], holes, infos, code + c, pool)
    ensures p.CodeHole? ==> Emitted(ps + [p], cs + [c], holes + [|ps|], infos + [CodeInfo(|code|)], code + c, pool)
    ensures p.TextHole? ==> Emitted(ps + [p], cs + [c], holes + [|ps|], infos + [DataInfo(|code|)], code + c, pool)
  {
    hide Raw, Recorded, AllRaw, Size, Flat, Addr;
    EmitBytes(ps, cs, code, pool, p, c);
    FlatLength(cs);
    if p.Lit? {
      RecordLit(ps, cs, holes, infos, p, c);
    } else {
      RecordHole(ps, cs, holes, infos, p, c);
    }
  }

  /** Appends one operand: fixed bytes, or a hole and its relocation record. */
  method AppendOperand(o: Operand, id: nat, pool: Pool, code0: seq<Byte>, infos0: seq<RelocateInfo>,
                       ghost ps: seq<Piece>, ghost cs0: seq<seq<Byte>>, ghost holes0: seq<nat>)
    returns (code: seq<Byte>, infos: seq<RelocateInfo>, ghost cs: seq<seq<Byte>>, ghost holes: seq<nat>)
    requires Emitted(ps, cs0, holes0, infos0, code0, pool)
    requires Storable(o) && |pool.slices| < U64_RANGE && (o.Text? ==> Denotes(pool, id, o.text))
    ensures Emitted(ps + OperandPieces(o), cs, holes, infos, code, pool)
    ensures cs0 <= cs
  {
    hide Emitted, Flat, Addr, Recorded, AllRaw;
    match o
    case Address(target) =>
      GroupsBound(target);
      infos := infos0 + [CodeInfo(|code0|)];
      code := EncodeU64(target, code0, Some(MAX_U64_ENCODED_BYTES));
      EmitPiece(ps, cs0, holes0, infos0, code0, pool, CodeHole(target), Padded(target, MAX_U64_ENCODED_BYTES));
      cs, holes := cs0 + [Padded(target, MAX_U64_ENCODED_BYTES)], holes0 + [|ps|];
    case Text(text) =>
      GroupsBound(id);
      infos := infos0 + [DataInfo(|code0|)];
      var c := EncodeU64(id, [], Some(MAX_U64_ENCODED_BYTES));
      assert c == Padded(id, MAX_U64_ENCODED_BYTES);
      assert RawText(c, pool, id, text);
      EmitPiece(ps, cs0, holes0, infos0, code0, pool, TextHole(text), c);
      cs, holes := cs0 + [c], holes0 + [|ps|];
      EmitPiece(ps + [TextHole(text)], cs, holes, infos, code0 + c, pool, Lit(Minimal(|text|)), Minimal(|text|));
      code := EncodeU64(|text|, code0 + c, None);
      cs := cs + [Minimal(|text|)];
      assert ps + [TextHole(text)] + [Lit(Minimal(|text|))] == ps + OperandPieces(o);
    case _ =>
      infos := infos0;
      EmitPiece(ps, cs0, holes0, infos0, code0, pool, Lit(PlainBytes(o)), PlainBytes(o));
      code := code0 + PlainBytes(o);
      cs, holes := cs0 + [PlainBytes(o)], holes0;
  }

  lemma {:induction false} OperandsPiecesSnoc(xs: seq<Operand>, o: Operand)
    ensures OperandsPieces(xs + [o]) == OperandsPieces(xs) + OperandPieces(o)
  {
    if xs == [] {
      assert OperandsPieces([o]) == OperandPieces(o) + OperandsPieces([]);
      assert xs + [o] == [o];
    } else {
      OperandsPiecesSnoc(xs[1..], o);
      assert (xs + [o])[1..] == xs[1..] + [o];
    }
  }

  /** Appends one instruction: its opcode and its operands. */
  method AppendInstruction(ins: Instruction, i: nat, pool: Pool, code0: seq<Byte>, infos0: seq<RelocateInfo>,
                           ghost ps: seq<Piece>, ghost cs0: seq<seq<Byte>>, ghost holes0: seq<nat>)
    returns (code: seq<Byte>, infos: seq<RelocateInfo>, ghost cs: seq<seq<Byte>>, ghost holes: seq<nat>)
    requires Emitted(ps, cs0, holes0, infos0, code0, pool)
    requires AllStorable(Operands(ins)) && |pool.slices| < U64_RANGE
    requires forall j :: 0 <= j < |Operands(ins)| && Operands(ins)[j].Text? ==>
               Denotes(pool, pool.index(i, j), Operands(ins)[j].text)
    ensures Emitted(ps + InstructionPieces(ins), cs, holes, infos, code, pool)
    ensures cs0 <= cs
  {
    hide Emitted, Storable, Denotes, Opcode, Operands, OperandPieces, OperandsPieces;
    var op, xs := Opcode(ins), Operands(ins);
    EmitPiece(ps, cs0, holes0, infos0, code0, pool, Lit([op]), [op]);
    ghost var qs := ps + [Lit([op])];
    code, infos := code0 + [op], infos0;
    cs, holes := cs0 + [[op]], holes0;
    OperandsNone(qs);
    for j := 0 to |xs|
      invariant Emitted(qs + OperandsPieces(xs[..j]), cs, holes, infos, code, pool)
      invariant cs0 <= cs
    {
      code, infos, cs, holes := AppendOperand(xs[j], pool.index(i, j), pool, code, infos, qs + OperandsPieces(xs[..j]),
                                              cs, holes);
      OperandsPiecesSnoc(xs[..j], xs[j]);
      assert xs[..j] + [xs[j]] == xs[..j + 1];
      assert qs + OperandsPieces(xs[..j]) + OperandPieces(xs[j])
             == qs + (OperandsPieces(xs[..j]) + OperandPieces(xs[j]));
    }
    assert xs[..|xs|] == xs;
    assert ps + [Lit([op])] + OperandsPieces(xs) == ps + ([Lit([op])] + OperandsPieces(xs));
  }

  lemma OperandsNone(qs: seq<Piece>)
    ensures qs + OperandsPieces([]) == qs
  {}

  lemma PiecesSnoc(prog: seq<Instruction>, i: nat)
    requires i < |prog|
    ensures Pieces(prog[..i + 1]) == Pieces(prog[..i]) + InstructionPieces(prog[i])
  {
    assert prog[..i + 1][..i] == prog[..i];
  }

  lemma EmittedNothing(pool: Pool)
    ensures Emitted([], [], [], [], [], pool)
  {}

  lemma EmittedSize(ps: seq<Piece>, cs: seq<seq<Byte>>, holes: seq<nat>, infos: seq<RelocateInfo>, code: seq<Byte>,
                    pool: Pool)
    requires Emitted(ps, cs, holes, infos, code, pool)
    ensures |cs| == |ps| && |code| == Addr(cs, |cs|)
  {
    FlatLength(cs);
  }

  /** Emits the whole program, recording where each instruction starts. */
  method Emit(prog: seq<Instruction>, pool: Pool)
    returns (code: seq<Byte>, infos: seq<RelocateInfo>, positions: seq<nat>, ghost cs: seq<seq<Byte>>,
             ghost holes: seq<nat>)
    requires Linkable(prog) && Serves(pool, prog)
    ensures Emitted(Pieces(prog), cs, holes, infos, code, pool)
    ensures Placed(prog, cs, positions)
    ensures |positions| == |prog|
  {
    hide Emitted, Linkable, Serves, Pieces, InstructionPieces, Storable;
    code, infos, positions, cs, holes := [], [], [], [], [];
    EmittedNothing(pool);
    PiecesNone(prog);
    for i := 0 to |prog|
      invariant Emitted(Pieces(prog[..i]), cs, holes, infos, code, pool)
      invariant |positions| == i && |cs| == First(prog, i)
      invariant forall q :: 0 <= q < i ==> First(prog, q) <= |cs| && positions[q] == Addr(cs, First(prog, q))
    {
      ghost var ps, cs1 := Pieces(prog[..i]), cs;
      EmittedSize(ps, cs, holes, infos, code, pool);
      positions := positions + [|code|];
      InstructionServed(prog, pool, i);
      code, infos, cs, holes := AppendInstruction(prog[i], i, pool, code, infos, ps, cs, holes);
      PiecesSnoc(prog, i);
      EmittedSize(Pieces(prog[..i + 1]), cs, holes, infos, code, pool);
      forall q | 0 <= q <= i ensures First(prog, q) <= |cs| && positions[q] == Addr(cs, First(prog, q)) {
        assert First(prog, q) <= |cs1|;
        assert cs[..First(prog, q)] == cs1[..First(prog, q)];
        AddrPrefix(cs, cs1, First(prog, q));
      }
    }
    assert prog[..|prog|] == prog;
  }

  lemma PiecesNone(prog: seq<Instruction>)
    ensures Pieces(prog[..0]) == [] && First(prog, 0) == 0
  {}

  lemma InstructionServed(prog: seq<Instruction>, pool: Pool, i: nat)
    requires Linkable(prog) && Serves(pool, prog) && i < |prog|
    ensures AllStorable(Operands(prog[i])) && |pool.slices| < U64_RANGE
    ensures forall j :: 0 <= j < |Operands(prog[i])| && Operands(prog[i])[j].Text? ==>
      Denotes(pool, pool.index(i, j), Operands(prog[i])[j].text)
  {}

  /** Concatenates the backing buffers of the pool, noting where each one starts. */
  method FlattenPool(pool: Pool) returns (data: seq<Byte>, starts: seq<nat>)
    ensures |starts| == |pool.backing| && |data| == PoolSize(pool.backing)
    ensures forall b :: 0 <= b < |starts| ==> Holds(data, starts[b], pool.backing[b])
  {
    data, starts := [], [];
    for b := 0 to |pool.backing|
      invariant |starts| == b && |data| == PoolSize(pool.backing[..b])
      invariant forall q :: 0 <= q < b ==> Holds(data, starts[q], pool.backing[q])
    {
      ghost var before := data;
      assert pool.backing[..b + 1][..b] == pool.backing[..b];
      starts := starts + [|data|];
      data := data + pool.backing[b];
      forall q | 0 <= q <= b ensures Holds(data, starts[q], pool.backing[q]) {
        if q < b {
          assert data[starts[q]..starts[q] + |pool.backing[q]|] == before[starts[q]..starts[q] + |pool.backing[q]|];
        }
      }
    }
    assert pool.backing[..|pool.backing|] == pool.backing;
  }

  // ----- planning: write each hole's value at its front, and note how much of it to keep -----

  /** Writing bytes over part of the buffer. */
  function Overwrite(code: seq<Byte>, addr: nat, bytes: seq<Byte>): (r: seq<Byte>)
    requires addr + |bytes| <= |code|
    ensures |r| == |code|
  {
    code[..addr] + bytes + code[addr + |bytes|..]
  }

  /** The first `j` holes hold their kept bytes in front, and are cut to them in the plan. */
  ghost predicate Planned(cs0: seq<seq<Byte>>, cs: seq<seq<Byte>>, cut: seq<seq<Byte>>, holes: seq<nat>, j: nat,
                          plan: seq<Cut>) {
    && |cs| == |cut| == |cs0| && j <= |holes| && |plan| == j && Indices(holes, |cs0|)
    && (forall k :: 0 <= k < |cs0| ==> |cs[k]| == |cs0[k]|)
    && (forall i :: 0 <= i < j ==> 1 <= |cut[holes[i]]| && cut[holes[i]] <= cs[holes[i]])
    && (forall i :: 0 <= i < j ==> plan[i] == Cut(Addr(cs0, holes[i]), |cs0[holes[i]]|, |cut[holes[i]]|))
    && (forall k :: 0 <= k < |cs0| && k !in holes[..j] ==> cs[k] == cs0[k] == cut[k])
  }

  lemma PlannedStart(cs0: seq<seq<Byte>>, holes: seq<nat>)
    requires Indices(holes, |cs0|)
    ensures Planned(cs0, cs0, cs0, holes, 0, [])
  {}

  /** The next hole still has its old contents, at its old address. */
  lemma PlannedRead(cs0: seq<seq<Byte>>, cs: seq<seq<Byte>>, cut: seq<seq<Byte>>, holes: seq<nat>, j: nat,
                    plan: seq<Cut>)
    requires Planned(cs0, cs, cut, holes, j, plan) && j < |holes|
    ensures Holds(Flat(cs), Addr(cs0, holes[j]), cs0[holes[j]])
  {
    var h := holes[j];
    assert h !in holes[..j];
    FlatAt(cs, h);
    AddrSameSizes(cs0, cs, h);
  }

  lemma PlannedStep(cs0: seq<seq<Byte>>, cs: seq<seq<Byte>>, cut: seq<seq<Byte>>, holes: seq<nat>, j: nat,
                    plan: seq<Cut>, bytes: seq<Byte>)
    requires Planned(cs0, cs, cut, holes, j, plan) && j < |holes| && 1 <= |bytes| <= |cs0[holes[j]]|
    ensures
      var h := holes[j];
      var next := cs[h := bytes + cs[h][|bytes|..]];
      && Planned(cs0, next, cut[h := bytes], holes, j + 1, plan + [Cut(Addr(cs0, h), |cs0[h]|, |bytes|)])
      && Addr(cs0, h) + |bytes| <= |Flat(cs)|
      && Flat(next) == Overwrite(Flat(cs), Addr(cs0, h), bytes)
  {
    hide Flat, Addr;
    var h := holes[j];
    var c := bytes + cs[h][|bytes|..];
    assert h !in holes[..j];
    assert holes[..j + 1] == holes[..j] + [h];
    FlatReplace(cs, h, c);
    AddrSameSizes(cs0, cs, h);
    FlatAt(cs, h);
    var a, code := Addr(cs0, h), Flat(cs);
    assert code[a + |bytes|..] == cs[h][|bytes|..] + code[a + |c|..] by {
      assert code[a..a + |c|] == cs[h];
      assert code[a + |bytes|..] == code[a..a + |c|][|bytes|..] + code[a + |c|..];
    }
    assert code[..a] + c + code[a + |c|..] == code[..a] + bytes + (cs[h][|bytes|..] + code[a + |c|..]);
  }

  lemma PlannedDone(cs0: seq<seq<Byte>>, cs: seq<seq<Byte>>, cut: seq<seq<Byte>>, holes: seq<nat>, plan: seq<Cut>)
    requires Planned(cs0, cs, cut, holes, |holes|, plan) && NonEmpty(cs0)
    ensures IsCut(cs, cut, holes) && IsPlan(plan, cs, cut, holes)
    ensures forall k :: 0 <= k <= |cs| ==> Addr(cs, k) == Addr(cs0, k)
  {
    assert holes[..|holes|] == holes;
    forall k | 0 <= k <= |cs| ensures Addr(cs, k) == Addr(cs0, k) {
      AddrSameSizes(cs0, cs, k);
    }
    forall k | 0 <= k < |cs| && k in holes ensures 1 <= |cut[k]| && cut[k] <= cs[k] {
      var i :| 0 <= i < |holes| && holes[i] == k;
    }
  }

  // ----- applying a plan -----

  /** Maps each old position back to its instruction. */
  method IndexPositions(positions: seq<nat>) returns (index: map<nat, nat>)
    requires Increasing(positions)
    ensures forall i :: 0 <= i < |positions| ==> positions[i] in index && index[positions[i]] == i
  {
    index := map[];
    for i := 0 to |positions|
      invariant forall q :: 0 <= q < i ==> positions[q] in index && index[positions[q]] == q
    {
      index := index[positions[i] := i];
    }
  }

  /** Relocation addresses, in order. */
  ghost predicate At(relocates: seq<nat>, cs: seq<seq<Byte>>, ch: seq<nat>) {
    |relocates| == |ch| && forall q :: 0 <= q < |ch| ==> ch[q] <= |cs| && relocates[q] == Addr(cs, ch[q])
  }

  /** Code holes are never wider than the relocation holes they started as. */
  ghost predicate Narrow(ps: seq<Piece>, cs: seq<seq<Byte>>) {
    |cs| == |ps| && forall k :: 0 <= k < |ps| && ps[k].CodeHole? ==> |cs[k]| <= MAX_U64_ENCODED_BYTES
  }

  /** The first `j` code holes hold the new positions of their targets, everything else is as before. */
  ghost predicate Retargeted(ps: seq<Piece>, cut: seq<seq<Byte>>, now: seq<seq<Byte>>, ch: seq<nat>, j: nat,
                             data: seq<Byte>, positions: seq<nat>) {
    && |now| == |cut| == |ps| && j <= |ch| && CodeHoles(ps, ch)
    && (forall k :: 0 <= k < |cut| ==> |now[k]| == |cut[k]|)
    && (forall q :: 0 <= q < j ==> Linked(ps[ch[q]], now[ch[q]], data, positions))
    && (forall k :: 0 <= k < |cut| && k !in ch[..j] ==> now[k] == cut[k])
  }

  lemma RetargetedRead(ps: seq<Piece>, cut: seq<seq<Byte>>, now: seq<seq<Byte>>, ch: seq<nat>, j: nat, data: seq<Byte>,
                       old_: seq<nat>, positions: seq<nat>)
    requires Retargeted(ps, cut, now, ch, j, data, positions) && j < |ch| && AllLinked(ps, cut, data, old_)
    ensures ps[ch[j]].CodeHole? && ps[ch[j]].target < |old_| && Groups(old_[ps[ch[j]].target]) <= |cut[ch[j]]|
    ensures old_[ps[ch[j]].target] < U64_RANGE
    ensures Addr(cut, ch[j]) + |cut[ch[j]]| <= |Flat(now)|
    ensures Read(Flat(now), Addr(cut, ch[j])) == (old_[ps[ch[j]].target], Addr(cut, ch[j]) + |cut[ch[j]]|)
  {
    hide Read, Flat, Addr, Padded, Groups;
    var h := ch[j];
    assert h !in ch[..j];
    assert Linked(ps[h], cut[h], data, old_);
    FlatAt(now, h);
    AddrSameSizes(cut, now, h);
    ReadHeld(Flat(now), Addr(cut, h), old_[ps[h].target], |cut[h]|);
  }

  lemma RetargetedStep(ps: seq<Piece>, cut: seq<seq<Byte>>, now: seq<seq<Byte>>, ch: seq<nat>, j: nat, data: seq<Byte>,
                       positions: seq<nat>, bytes: seq<Byte>)
    requires Retargeted(ps, cut, now, ch, j, data, positions) && j < |ch|
    requires |bytes| == |cut[ch[j]]| && Linked(ps[ch[j]], bytes, data, positions)
    ensures ch[j] < |now| && Retargeted(ps, cut, now[ch[j] := bytes], ch, j + 1, data, positions)
    ensures Addr(cut, ch[j]) + |bytes| <= |Flat(now)|
    ensures Flat(now[ch[j] := bytes]) == Overwrite(Flat(now), Addr(cut, ch[j]), bytes)
  {
    hide Flat, Addr, Linked;
    var h := ch[j];
    assert ch[..j + 1] == ch[..j] + [h];
    assert h !in ch[..j];
    FlatReplace(now, h, bytes);
    AddrSameSizes(cut, now, h);
  }

  lemma RetargetedDone(prog: seq<Instruction>, cut: seq<seq<Byte>>, now: seq<seq<Byte>>, ch: seq<nat>, data: seq<Byte>,
                       old_: seq<nat>, positions: seq<nat>)
    requires Retargeted(Pieces(prog), cut, now, ch, |ch|, data, positions) && AllLinked(Pieces(prog), cut, data, old_)
    requires Placed(prog, cut, positions)
    ensures AllLinked(Pieces(prog), now, data, positions) && Placed(prog, now, positions)
    ensures forall q :: 0 <= q < |ch| ==> Addr(now, ch[q]) == Addr(cut, ch[q])
  {
    hide Pieces;
    var ps := Pieces(prog);
    assert ch[..|ch|] == ch;
    forall k | 0 <= k < |ps| ensures Linked(ps[k], now[k], data, positions) {
      assert Linked(ps[k], cut[k], data, old_);
      if k in ch {
        var q :| 0 <= q < |ch| && ch[q] == k;
      }
    }
    forall k | 0 <= k <= |cut| ensures Addr(cut, k) == Addr(now, k) {
      AddrSameSizes(cut, now, k);
    }
  }

  /** The hole at `relocate` moved to the address its chunk has after cutting. */
  lemma MovedHole(plan: seq<Cut>, cs: seq<seq<Byte>>, cut: seq<seq<Byte>>, holes: seq<nat>, moved: map<nat, nat>,
                  h: nat)
    requires IsCut(cs, cut, holes) && Indices(holes, |cs|) && IsPlan(plan, cs, cut, holes) && h in holes
    requires forall i :: 0 <= i < |plan| ==> plan[i].next <= plan[i].prev
    requires forall i :: 0 <= i < |plan| ==>
               plan[i].addr in moved && moved[plan[i].addr] + Before(plan, plan[i].addr) == plan[i].addr
    ensures Addr(cs, h) in moved && moved[Addr(cs, h)] == Addr(cut, h)
  {
    var i :| 0 <= i < |holes| && holes[i] == h;
    assert plan[i].addr == Addr(cs, h);
    AddrCut(plan, cs, cut, holes, h);
  }

  /** A position only ever moves down, so its coding fits the hole that held the old one. */
  lemma FitsHole(old_: nat, new_: nat, width: nat)
    requires new_ <= old_ && Groups(old_) <= width
    ensures Groups(new_) <= width
  {
    GroupsMonotone(new_, old_);
  }

  /** The second half of applying a plan: rewrite the address in every code hole to the new position
      of the instruction the old address named, keeping the width of the hole. */
  method Retarget(relocates0: seq<nat>, moved: map<nat, nat>, code0: seq<Byte>, positions0: seq<nat>,
                  positions: seq<nat>, ghost ps: seq<Piece>, ghost cut: seq<seq<Byte>>, ghost ch: seq<nat>,
                  ghost data: seq<Byte>)
    returns (relocates: seq<nat>, code: seq<Byte>, ghost now: seq<seq<Byte>>)
    requires code0 == Flat(cut) && AllLinked(ps, cut, data, positions0) && CodeHoles(ps, ch) && Narrow(ps, cut)
    requires |positions| == |positions0| && Increasing(positions0)
    requires forall i :: 0 <= i < |positions| ==> positions[i] <= positions0[i]
    requires |relocates0| == |ch|
    requires forall q :: 0 <= q < |ch| ==> relocates0[q] in moved && moved[relocates0[q]] == Addr(cut, ch[q])
    ensures Retargeted(ps, cut, now, ch, |ch|, data, positions) && code == Flat(now)
    ensures |relocates| == |ch| && forall q :: 0 <= q < |ch| ==> relocates[q] == Addr(cut, ch[q])
  {
    hide AllLinked, Linked, CodeHoles, Increasing, Retargeted, Flat, Addr, Read, Padded, Groups, Overwrite;
    var index := IndexPositions(positions0);
    relocates, code, now := relocates0, code0, cut;
    RetargetedStart(ps, cut, ch, data, positions0, positions);
    for j := 0 to |relocates|
      invariant |relocates| == |ch| && code == Flat(now)
      invariant Retargeted(ps, cut, now, ch, j, data, positions)
      invariant forall q :: 0 <= q < j ==> relocates[q] == Addr(cut, ch[q])
      invariant forall q :: j <= q < |ch| ==> relocates[q] == relocates0[q]
    {
      var addr := moved[relocates[j]];
      relocates := relocates[j := addr];
      RetargetedRead(ps, cut, now, ch, j, data, positions0, positions);
      var old_, aft := DecodeU64(code, addr);
      var pos := positions[index[old_]];
      FitsHole(old_, pos, aft - addr);
      NarrowAt(ps, cut, ch[j]);
      var bytes := EncodeU64(pos, [], Some(aft - addr));
      NewHole(ps[ch[j]], bytes, data, positions, aft - addr);
      RetargetedStep(ps, cut, now, ch, j, data, positions, bytes);
      code := Splice(code, addr, bytes);
      now := now[ch[j] := bytes];
    }
  }

  method Splice(code0: seq<Byte>, addr: nat, bytes: seq<Byte>) returns (code: seq<Byte>)
    requires addr + |bytes| <= |code0|
    ensures code == Overwrite(code0, addr, bytes)
  {
    code := code0[..addr] + bytes + code0[addr + |bytes|..];
  }

  lemma NarrowAt(ps: seq<Piece>, cs: seq<seq<Byte>>, k: nat)
    requires Narrow(ps, cs) && k < |ps| && ps[k].CodeHole?
    ensures |cs[k]| <= MAX_U64_ENCODED_BYTES
  {}

  lemma NewHole(p: Piece, bytes: seq<Byte>, data: seq<Byte>, positions: seq<nat>, width: nat)
    requires p.CodeHole? && p.target < |positions| && positions[p.target] < U64_RANGE
    requires Groups(positions[p.target]) <= width && bytes == [] + Padded(positions[p.target], width)
    ensures Linked(p, bytes, data, positions) && |bytes| == width
  {
    assert bytes == Padded(positions[p.target], width);
  }

  lemma RetargetedStart(ps: seq<Piece>, cut: seq<seq<Byte>>, ch: seq<nat>, data: seq<Byte>, positions0: seq<nat>,
                        positions: seq<nat>)
    requires AllLinked(ps, cut, data, positions0) && CodeHoles(ps, ch)
    ensures Retargeted(ps, cut, cut, ch, 0, data, positions)
    ensures forall q :: 0 <= q < |ch| ==> ch[q] < |ps|
  {}

  /** Everything the shrinking cycles keep: the buffer is the chunks, every chunk is linked with
      respect to the current instruction positions, and the relocations are the code holes. */
  ghost predicate Consistent(prog: seq<Instruction>, cs: seq<seq<Byte>>, ch: seq<nat>, data: seq<Byte>,
                             code: seq<Byte>, positions: seq<nat>, relocates: seq<nat>) {
    && code == Flat(cs) && |code| < U64_RANGE
    && AllLinked(Pieces(prog), cs, data, positions) && Placed(prog, cs, positions)
    && NonEmpty(cs) && Narrow(Pieces(prog), cs)
    && CodeHoles(Pieces(prog), ch) && At(relocates, cs, ch)
  }

  /** A plan for the current chunks: the kept part of every chunk is linked to the positions before
      the cut. */
  ghost predicate Ready(prog: seq<Instruction>, cs: seq<seq<Byte>>, cut: seq<seq<Byte>>, holes: seq<nat>, ch: seq<nat>,
                        plan: seq<Cut>, data: seq<Byte>, code: seq<Byte>, positions: seq<nat>, relocates: seq<nat>) {
    && code == Flat(cs) && |code| < U64_RANGE
    && Indices(holes, |cs|) && IsCut(cs, cut, holes) && IsPlan(plan, cs, cut, holes)
    && Placed(prog, cs, positions) && AllLinked(Pieces(prog), cut, data, positions) && Narrow(Pieces(prog), cut)
    && CodeHoles(Pieces(prog), ch) && At(relocates, cs, ch) && (forall q :: 0 <= q < |ch| ==> ch[q] in holes)
  }

  lemma ReadyToClose(prog: seq<Instruction>, cs: seq<seq<Byte>>, cut: seq<seq<Byte>>, holes: seq<nat>, ch: seq<nat>,
                     plan: seq<Cut>, data: seq<Byte>, code: seq<Byte>, positions: seq<nat>, relocates: seq<nat>)
    requires Ready(prog, cs, cut, holes, ch, plan, data, code, positions, relocates)
    ensures Ordered(plan, 0, |code|) && Increasing(positions) && Outside(positions, plan)
    ensures forall i :: 0 <= i < |plan| ==> plan[i].next <= plan[i].prev
    ensures Shrunk(code, plan, 0) == Flat(cut)
    ensures |relocates| == |ch| && CodeHoles(Pieces(prog), ch) && AllLinked(Pieces(prog), cut, data, positions)
            && Narrow(Pieces(prog), cut)
  {
    hide Flat, Pieces, AllLinked, Placed, Narrow;
    assert plan[0..] == plan;
    assert cut[0..] == cut;
    PlanOrdered(plan, cs, cut, holes, 0, 0);
    PlanShrinks(plan, cs, cut, holes, 0, 0);
    PlanKeeps(plan, cs, cut, holes);
    CutIsNonEmpty(cs, cut, holes);
    PlacedIncreasing(prog, cs, positions);
    PlacedOutside(prog, plan, cs, cut, holes, positions);
  }

  lemma MovedHoles(prog: seq<Instruction>, cs: seq<seq<Byte>>, cut: seq<seq<Byte>>, holes: seq<nat>, ch: seq<nat>,
                   plan: seq<Cut>, data: seq<Byte>, code: seq<Byte>, positions: seq<nat>, relocates: seq<nat>,
                   moved: map<nat, nat>)
    requires Ready(prog, cs, cut, holes, ch, plan, data, code, positions, relocates)
    requires forall i :: 0 <= i < |plan| ==> plan[i].next <= plan[i].prev
    requires forall i :: 0 <= i < |plan| ==>
               plan[i].addr in moved && moved[plan[i].addr] + Before(plan, plan[i].addr) == plan[i].addr
    ensures |relocates| == |ch| && |cut| == |cs|
    ensures forall q :: 0 <= q < |ch| ==>
              ch[q] <= |cut| && relocates[q] in moved && moved[relocates[q]] == Addr(cut, ch[q])
  {
    hide Flat, Pieces, AllLinked, Placed, Narrow, Addr, Before;
    forall q | 0 <= q < |ch|
      ensures ch[q] <= |cut| && relocates[q] in moved && moved[relocates[q]] == Addr(cut, ch[q])
    {
      MovedHole(plan, cs, cut, holes, moved, ch[q]);
    }
  }

  lemma PlacedAfter(prog: seq<Instruction>, cs: seq<seq<Byte>>, cut: seq<seq<Byte>>, holes: seq<nat>, ch: seq<nat>,
                    plan: seq<Cut>, data: seq<Byte>, code: seq<Byte>, positions0: seq<nat>, relocates: seq<nat>,
                    positions: seq<nat>)
    requires Ready(prog, cs, cut, holes, ch, plan, data, code, positions0, relocates)
    requires forall i :: 0 <= i < |plan| ==> plan[i].next <= plan[i].prev
    requires |positions| == |positions0|
    requires forall i :: 0 <= i < |positions0| ==> positions[i] + Before(plan, positions0[i]) == positions0[i]
    ensures Placed(prog, cut, positions)
  {
    hide Opcode, Operands;
    PlacedCut(prog, plan, cs, cut, holes, positions0, positions);
  }

  /** Writing targets changes no sizes. */
  lemma RetargetedKeeps(ps: seq<Piece>, cut: seq<seq<Byte>>, now: seq<seq<Byte>>, ch: seq<nat>, j: nat,
                        data: seq<Byte>, positions: seq<nat>)
    requires Retargeted(ps, cut, now, ch, j, data, positions) && NonEmpty(cut) && Narrow(ps, cut)
    ensures NonEmpty(now) && Narrow(ps, now) && CodeHoles(ps, ch) && |now| == |cut|
  {
    hide Linked, PieceSize;
  }

  lemma ConsistentAfter(prog: seq<Instruction>, cut: seq<seq<Byte>>, now: seq<seq<Byte>>, ch: seq<nat>, data: seq<Byte>,
                        positions0: seq<nat>, positions: seq<nat>, relocates: seq<nat>)
    requires Retargeted(Pieces(prog), cut, now, ch, |ch|, data, positions)
             && AllLinked(Pieces(prog), cut, data, positions0)
    requires Placed(prog, cut, positions) && NonEmpty(cut) && Narrow(Pieces(prog), cut) && |Flat(now)| < U64_RANGE
    requires |relocates| == |ch| && forall q :: 0 <= q < |ch| ==> ch[q] <= |cut| && relocates[q] == Addr(cut, ch[q])
    ensures Consistent(prog, now, ch, data, Flat(now), positions, relocates)
  {
    hide Pieces, Flat, AllLinked, Placed, Retargeted, Narrow, NonEmpty, Addr, CodeHoles;
    RetargetedKeeps(Pieces(prog), cut, now, ch, |ch|, data, positions);
    RetargetedDone(prog, cut, now, ch, data, positions0, positions);
  }

  /** Applies a shrinking plan to the buffer, the instruction positions and the relocations, and says
      how many bytes it removed. */
  method ApplyShrinkingPlan(prog: seq<Instruction>, plan: seq<Cut>, relocates0: seq<nat>, code0: seq<Byte>,
                            positions0: seq<nat>, ghost cs: seq<seq<Byte>>, ghost cut: seq<seq<Byte>>,
                            ghost holes: seq<nat>, ghost ch: seq<nat>, ghost data: seq<Byte>)
    returns (relocates: seq<nat>, code: seq<Byte>, positions: seq<nat>, totalShift: nat, ghost now: seq<seq<Byte>>)
    requires Ready(prog, cs, cut, holes, ch, plan, data, code0, positions0, relocates0)
    ensures Consistent(prog, now, ch, data, code, positions, relocates)
    ensures |code| + totalShift == |code0|
    ensures forall i :: 0 <= i < |plan| ==> plan[i].next <= plan[i].prev
    ensures totalShift == Total(plan)
    ensures |positions| == |positions0|
    ensures forall i :: 0 <= i < |positions| ==> positions[i] + Before(plan, positions0[i]) == positions0[i]
    ensures |now| == |cut| && forall k :: 0 <= k < |cut| ==> |now[k]| == |cut[k]|
  {
    hide *;
    ReadyToClose(prog, cs, cut, holes, ch, plan, data, code0, positions0, relocates0);
    var moved;
    code, positions, moved, totalShift := CloseGaps(plan, code0, positions0);
    MovedHoles(prog, cs, cut, holes, ch, plan, data, code0, positions0, relocates0, moved);
    PlacedAfter(prog, cs, cut, holes, ch, plan, data, code0, positions0, relocates0, positions);
    ghost var closed := |code|;
    relocates, code, now := Retarget(relocates0, moved, code, positions0, positions, Pieces(prog), cut, ch, data);
    ReadySizes(prog, cs, cut, holes, ch, plan, data, code0, positions0, relocates0, now, positions);
    ConsistentAfter(prog, cut, now, ch, data, positions0, positions, relocates);
  }

  lemma {:induction false} FlatSameSize(cs: seq<seq<Byte>>, ds: seq<seq<Byte>>)
    requires |cs| == |ds| && forall i :: 0 <= i < |cs| ==> |cs[i]| == |ds[i]|
    ensures |Flat(cs)| == |Flat(ds)|
  {
    FlatLength(cs);
    FlatLength(ds);
    AddrSameSizes(cs, ds, |cs|);
  }

  lemma ReadySizes(prog: seq<Instruction>, cs: seq<seq<Byte>>, cut: seq<seq<Byte>>, holes: seq<nat>, ch: seq<nat>,
                   plan: seq<Cut>, data: seq<Byte>, code: seq<Byte>, positions0: seq<nat>, relocates: seq<nat>,
                   now: seq<seq<Byte>>, positions: seq<nat>)
    requires Ready(prog, cs, cut, holes, ch, plan, data, code, positions0, relocates)
    requires Retargeted(Pieces(prog), cut, now, ch, |ch|, data, positions)
    requires |Flat(cut)| <= |code|
    ensures |Flat(now)| == |Flat(cut)| < U64_RANGE && NonEmpty(cut)
    ensures |now| == |cut| && forall k :: 0 <= k < |cut| ==> |now[k]| == |cut[k]|
  {
    hide Flat, Pieces, AllLinked, Placed, Narrow;
    FlatSameSize(now, cut);
  }

  // ----- the first pass: from indices to addresses -----

  ghost predicate HolesBelow(ps: seq<Piece>, n: nat) {
    forall k :: 0 <= k < |ps| && ps[k].CodeHole? ==> ps[k].target < n
  }

  lemma HolesBelowCat(ps: seq<Piece>, qs: seq<Piece>, n: nat)
    requires HolesBelow(ps, n) && HolesBelow(qs, n)
    ensures HolesBelow(ps + qs, n)
  {
  }

  lemma {:induction false} OperandTargets(xs: seq<Operand>, n: nat)
    requires TargetsBelow(xs, n)
    ensures HolesBelow(OperandsPieces(xs), n)
  {
    if xs != [] {
      OperandTargets(xs[1..], n);
    }
  }

  lemma {:induction false} PieceTargets(prog: seq<Instruction>, n: nat)
    requires forall i :: 0 <= i < |prog| ==> TargetsBelow(Operands(prog[i]), n)
    ensures HolesBelow(Pieces(prog), n)
  {
    hide Operands, OperandsPieces, TargetsBelow, Opcode, HolesBelow;
    if prog == [] {
      HolesBelowNone(n);
    } else {
      var m := |prog| - 1;
      PieceTargets(prog[..m], n);
      OperandTargets(Operands(prog[m]), n);
      OpcodeAbove(Opcode(prog[m]), OperandsPieces(Operands(prog[m])), n);
      HolesBelowCat(Pieces(prog[..m]), InstructionPieces(prog[m]), n);
    }
  }

  lemma HolesBelowNone(n: nat)
    ensures HolesBelow([], n)
  {
  }

  lemma OpcodeAbove(op: Byte, ps: seq<Piece>, n: nat)
    requires HolesBelow(ps, n)
    ensures HolesBelow([Lit([op])] + ps, n)
  {
  }

  lemma LinkableTargets(prog: seq<Instruction>)
    requires Linkable(prog)
    ensures forall i :: 0 <= i < |prog| ==> TargetsBelow(Operands(prog[i]), |prog|)
  {}

  lemma HoldsSlice(whole: seq<Byte>, start: nat, part: seq<Byte>, x: nat, y: nat)
    requires Holds(whole, start, part) && x <= y <= |part|
    ensures start + y <= |whole| && whole[start + x..start + y] == part[x..y]
  {
    var z := whole[start..start + |part|];
    assert |whole[start + x..start + y]| == y - x == |z[x..y]|;
    forall i | 0 <= i < y - x ensures whole[start + x..start + y][i] == z[x..y][i] {
      assert whole[start + x..start + y][i] == whole[start + x + i] == z[x + i];
    }
  }

  /** The data position a pool index stands for holds the text. */
  lemma PoolPosition(pool: Pool, id: nat, text: Str, data: seq<Byte>, starts: seq<nat>)
    requires Denotes(pool, id, text) && |starts| == |pool.backing| && |data| < U64_RANGE
    requires forall b :: 0 <= b < |starts| ==> Holds(data, starts[b], pool.backing[b])
    ensures id < |pool.slices| && pool.slices[id].src < |starts|
    ensures
      var pos := starts[pool.slices[id].src] + pool.slices[id].start;
      pos < U64_RANGE && NamesText(Minimal(pos), data, text)
  {
    var s := pool.slices[id];
    var b, p := pool.backing[s.src], starts[s.src];
    assert Holds(data, p, b);
    HoldsSlice(data, p, b, s.start, s.start + |text|);
    GroupsBound(p + s.start);
  }

  /** The value a hole first takes: the byte position of the instruction it names, or the data position
      of its text. */
  method HoleValue(info: RelocateInfo, code: seq<Byte>, positions: seq<nat>, pool: Pool, data: seq<Byte>,
                   starts: seq<nat>, ghost p: Piece, ghost c: seq<Byte>)
    returns (bytes: seq<Byte>, aft: nat)
    requires Raw(p, c, pool) && !p.Lit? && (info.CodeInfo? <==> p.CodeHole?)
    requires Holds(code, info.addr, c)
    requires p.CodeHole? ==> p.target < |positions| && positions[p.target] < U64_RANGE
    requires |starts| == |pool.backing| && |data| < U64_RANGE
    requires forall b :: 0 <= b < |starts| ==> Holds(data, starts[b], pool.backing[b])
    ensures Linked(p, bytes, data, positions) && 1 <= |bytes| <= |c| == MAX_U64_ENCODED_BYTES
    ensures aft == info.addr + |c|
  {
    hide Groups, Padded, Read, Denotes, NamesText;
    match info
    case CodeInfo(addr) =>
      ReadHeld(code, addr, p.target, MAX_U64_ENCODED_BYTES);
      var target;
      target, aft := DecodeU64(code, addr);
      GroupsBound(positions[target]);
      bytes := EncodeU64(positions[target], [], None);
      NewHole(p, bytes, data, positions, Groups(positions[target]));
    case DataInfo(addr) =>
      ghost var id: U64 :| RawText(c, pool, id, p.text);
      ReadHeld(code, addr, id, MAX_U64_ENCODED_BYTES);
      var index;
      index, aft := DecodeU64(code, addr);
      PoolPosition(pool, index, p.text, data, starts);
      var slice := pool.slices[index];
      var pos := starts[slice.src] + slice.start;
      GroupsBound(pos);
      bytes := EncodeU64(pos, [], None);
      assert bytes == [] + Minimal(pos) == Minimal(pos);
  }

  /** The holes planned so far are linked, and the relocations list the code holes among them. */
  ghost predicate Relocated(ps: seq<Piece>, cs0: seq<seq<Byte>>, cut: seq<seq<Byte>>, holes: seq<nat>, j: nat,
                            ch: seq<nat>, relocates: seq<nat>, data: seq<Byte>, positions: seq<nat>) {
    && |cut| == |cs0| == |ps| && j <= |holes| && Indices(holes, |ps|) && Indices(ch, |ps|)
    && (forall i :: 0 <= i < j ==>
          Linked(ps[holes[i]], cut[holes[i]], data, positions) && |cut[holes[i]]| <= MAX_U64_ENCODED_BYTES)
    && (forall k :: 0 <= k < |ps| ==> (k in ch <==> k in holes[..j] && ps[k].CodeHole?))
    && |relocates| == |ch| && (forall q :: 0 <= q < |ch| ==> relocates[q] == Addr(cs0, ch[q]))
  }

  lemma RelocatedStart(ps: seq<Piece>, cs0: seq<seq<Byte>>, cut: seq<seq<Byte>>, holes: seq<nat>, data: seq<Byte>,
                       positions: seq<nat>)
    requires |cut| == |cs0| == |ps| && Indices(holes, |ps|)
    ensures Relocated(ps, cs0, cut, holes, 0, [], [], data, positions)
  {}

  lemma RelocatedStep(ps: seq<Piece>, cs0: seq<seq<Byte>>, cut: seq<seq<Byte>>, holes: seq<nat>, j: nat,
                      ch: seq<nat>, relocates: seq<nat>, data: seq<Byte>, positions: seq<nat>, bytes: seq<Byte>)
    requires Relocated(ps, cs0, cut, holes, j, ch, relocates, data, positions) && j < |holes|
    requires Linked(ps[holes[j]], bytes, data, positions) && |bytes| <= MAX_U64_ENCODED_BYTES
    ensures
      var h := holes[j];
      Relocated(ps, cs0, cut[h := bytes], holes, j + 1, if ps[h].CodeHole? then ch + [h] else ch,
                if ps[h].CodeHole? then relocates + [Addr(cs0, h)] else relocates, data, positions)
  {
    hide Linked, Addr;
    var h := holes[j];
    assert holes[..j + 1] == holes[..j] + [h];
    assert h !in holes[..j];
    if ps[h].CodeHole? {
      forall q | 0 <= q < |ch| ensures ch[q] < h {
        assert ch[q] in holes[..j];
      }
    }
  }

  lemma FirstPassDone(prog: seq<Instruction>, cs0: seq<seq<Byte>>, cs: seq<seq<Byte>>, cut: seq<seq<Byte>>,
                      holes: seq<nat>, plan: seq<Cut>, ch: seq<nat>, relocates: seq<nat>, data: seq<Byte>,
                      positions: seq<nat>, pool: Pool)
    requires AllRaw(Pieces(prog), cs0, pool) && AllHoles(Pieces(prog), holes) && Placed(prog, cs0, positions)
    requires Planned(cs0, cs, cut, holes, |holes|, plan) && |Flat(cs)| < U64_RANGE
    requires Relocated(Pieces(prog), cs0, cut, holes, |holes|, ch, relocates, data, positions)
    ensures Ready(prog, cs, cut, holes, ch, plan, data, Flat(cs), positions, relocates)
  {
    hide Pieces, Flat, Addr;
    var ps := Pieces(prog);
    assert holes[..|holes|] == holes;
    forall k | 0 <= k < |ps| ensures |cs0[k]| >= 1 {
      RawSize(ps[k], cs0[k], pool);
    }
    PlannedDone(cs0, cs, cut, holes, plan);
    forall k | 0 <= k < |ps|
      ensures Linked(ps[k], cut[k], data, positions) && (ps[k].CodeHole? ==> |cut[k]| <= MAX_U64_ENCODED_BYTES)
    {
      if k in holes {
        var i :| 0 <= i < |holes| && holes[i] == k;
      } else {
        assert Raw(ps[k], cs0[k], pool);
      }
    }
  }

  lemma RecordedAt(ps: seq<Piece>, cs: seq<seq<Byte>>, holes: seq<nat>, infos: seq<RelocateInfo>, pool: Pool, j: nat)
    requires AllRaw(ps, cs, pool) && Recorded(ps, cs, holes, infos) && j < |holes|
    ensures |infos| == |holes| && |cs| == |ps| && holes[j] < |ps| && infos[j].addr == Addr(cs, holes[j])
    ensures Raw(ps[holes[j]], cs[holes[j]], pool) && !ps[holes[j]].Lit?
    ensures infos[j].CodeInfo? <==> ps[holes[j]].CodeHole?
  {}

  /** The first pass over the relocation records: writes the real value at the front of each hole,
      plans how much of it to keep, and collects the code holes. */
  method FirstPass(prog: seq<Instruction>, infos: seq<RelocateInfo>, code0: seq<Byte>, positions: seq<nat>,
                   pool: Pool, data: seq<Byte>, starts: seq<nat>, ghost cs0: seq<seq<Byte>>, ghost holes: seq<nat>)
    returns (plan: seq<Cut>, relocates: seq<nat>, code: seq<Byte>, ghost cs: seq<seq<Byte>>, ghost cut: seq<seq<Byte>>,
             ghost ch: seq<nat>)
    requires Linkable(prog) && Emitted(Pieces(prog), cs0, holes, infos, code0, pool) && Placed(prog, cs0, positions)
    requires |code0| < U64_RANGE && |starts| == |pool.backing| && |data| < U64_RANGE
    requires forall b :: 0 <= b < |starts| ==> Holds(data, starts[b], pool.backing[b])
    ensures Ready(prog, cs, cut, holes, ch, plan, data, code, positions, relocates)
    ensures |code| == |code0|
  {
    hide Linkable, Pieces, Flat, Addr, Planned, Relocated, Ready, Raw, Linked, Holds, Overwrite, Recorded, AllRaw;
    hide AllHoles, TargetsBelow, Placed;
    LinkableTargets(prog);
    PieceTargets(prog, |prog|);
    ghost var ps := Pieces(prog);
    plan, relocates, code := [], [], code0;
    cs, cut, ch := cs0, cs0, [];
    FirstPassStart(ps, cs0, holes, infos, pool, data, positions);
    PlacedBound(prog, cs0, positions);
    for j := 0 to |infos|
      invariant |infos| == |holes| && code == Flat(cs) && |code| == |code0|
      invariant Planned(cs0, cs, cut, holes, j, plan)
      invariant Relocated(ps, cs0, cut, holes, j, ch, relocates, data, positions)
    {
      var info := infos[j];
      RecordedAt(ps, cs0, holes, infos, pool, j);
      ghost var h := holes[j];
      PlannedRead(cs0, cs, cut, holes, j, plan);
      var bytes, aft := HoleValue(info, code, positions, pool, data, starts, ps[h], cs0[h]);
      PlannedStep(cs0, cs, cut, holes, j, plan, bytes);
      RelocatedStep(ps, cs0, cut, holes, j, ch, relocates, data, positions, bytes);
      HoleInside(cs0, cs, cut, holes, j, plan);
      if info.CodeInfo? {
        relocates := relocates + [info.addr];
        ch := ch + [h];
      }
      plan := plan + [Cut(info.addr, aft - info.addr, |bytes|)];
      code := Splice(code, info.addr, bytes);
      cs, cut := cs[h := bytes + cs[h][|bytes|..]], cut[h := bytes];
    }
    FirstPassParts(ps, cs0, holes, infos, pool);
    FirstPassDone(prog, cs0, cs, cut, holes, plan, ch, relocates, data, positions, pool);
  }

  lemma HoleInside(cs0: seq<seq<Byte>>, cs: seq<seq<Byte>>, cut: seq<seq<Byte>>, holes: seq<nat>, j: nat,
                   plan: seq<Cut>)
    requires Planned(cs0, cs, cut, holes, j, plan) && j < |holes|
    ensures holes[j] < |cs| == |cut| && |cs[holes[j]]| == |cs0[holes[j]]|
  {}

  lemma FirstPassParts(ps: seq<Piece>, cs0: seq<seq<Byte>>, holes: seq<nat>, infos: seq<RelocateInfo>, pool: Pool)
    requires Recorded(ps, cs0, holes, infos)
    ensures AllHoles(ps, holes)
  {}

  lemma FirstPassStart(ps: seq<Piece>, cs0: seq<seq<Byte>>, holes: seq<nat>, infos: seq<RelocateInfo>, pool: Pool,
                       data: seq<Byte>, positions: seq<nat>)
    requires AllRaw(ps, cs0, pool) && Recorded(ps, cs0, holes, infos)
    ensures Planned(cs0, cs0, cs0, holes, 0, []) && Relocated(ps, cs0, cs0, holes, 0, [], [], data, positions)
    ensures |infos| == |holes|
  {
    PlannedStart(cs0, holes);
    RelocatedStart(ps, cs0, cs0, holes, data, positions);
  }

  lemma PlacedBound(prog: seq<Instruction>, cs: seq<seq<Byte>>, positions: seq<nat>)
    requires Placed(prog, cs, positions)
    ensures |positions| == |prog| && forall i :: 0 <= i < |prog| ==> positions[i] <= |Flat(cs)|
  {
    hide Opcode, Operands;
    forall i | 0 <= i < |prog| ensures positions[i] <= |Flat(cs)| {
      FlatSlice(cs, First(prog, i), First(prog, i));
    }
  }

  // ----- the shrinking cycles -----

  /** The code holes are at most as wide as their addresses need. */
  ghost predicate Tight(ps: seq<Piece>, cs: seq<seq<Byte>>, positions: seq<nat>) {
    |cs| == |ps| && forall k :: 0 <= k < |ps| && ps[k].CodeHole? && ps[k].target < |positions| ==>
      |cs[k]| <= Groups(positions[ps[k].target])
  }

  /** The holes planned so far keep the shortest coding of the address they hold. */
  ghost predicate Shortened(ps: seq<Piece>, cs0: seq<seq<Byte>>, cut: seq<seq<Byte>>, ch: seq<nat>, j: nat,
                            positions: seq<nat>) {
    && |cut| == |cs0| == |ps| && j <= |ch| && CodeHoles(ps, ch)
    && forall i :: 0 <= i < j ==>
         && ps[ch[i]].target < |positions| && positions[ps[ch[i]].target] < U64_RANGE
         && cut[ch[i]] == Minimal(positions[ps[ch[i]].target]) && |cut[ch[i]]| <= |cs0[ch[i]]|
  }

  lemma ConsistentHole(prog: seq<Instruction>, cs: seq<seq<Byte>>, ch: seq<nat>, data: seq<Byte>, code: seq<Byte>,
                       positions: seq<nat>, relocates: seq<nat>, j: nat)
    requires Consistent(prog, cs, ch, data, code, positions, relocates) && j < |ch|
    ensures |cs| == |Pieces(prog)| && |relocates| == |ch| && ch[j] < |cs| && relocates[j] == Addr(cs, ch[j])
    ensures
      var p, c := Pieces(prog)[ch[j]], cs[ch[j]];
      p.CodeHole? && p.target < |positions| && positions[p.target] < U64_RANGE && Groups(positions[p.target]) <= |c|
      && c == Padded(positions[p.target], |c|)
  {
    hide Padded, Groups, Flat, Addr, Pieces;
    var ps := Pieces(prog);
    assert Linked(ps[ch[j]], cs[ch[j]], data, positions);
  }

  lemma ShortenedStart(prog: seq<Instruction>, cs: seq<seq<Byte>>, ch: seq<nat>, data: seq<Byte>, code: seq<Byte>,
                       positions: seq<nat>, relocates: seq<nat>)
    requires Consistent(prog, cs, ch, data, code, positions, relocates)
    ensures Planned(cs, cs, cs, ch, 0, []) && Shortened(Pieces(prog), cs, cs, ch, 0, positions)
    ensures |relocates| == |ch| && code == Flat(cs)
  {
    hide Opcode, Operands;
    PlannedStart(cs, ch);
  }

  lemma ShortenedStep(ps: seq<Piece>, cs0: seq<seq<Byte>>, cut: seq<seq<Byte>>, ch: seq<nat>, j: nat,
                      positions: seq<nat>, bytes: seq<Byte>)
    requires Shortened(ps, cs0, cut, ch, j, positions) && j < |ch|
    requires ps[ch[j]].target < |positions| && positions[ps[ch[j]].target] < U64_RANGE
    requires bytes == Minimal(positions[ps[ch[j]].target]) && |bytes| <= |cs0[ch[j]]|
    ensures Shortened(ps, cs0, cut[ch[j] := bytes], ch, j + 1, positions)
  {
    hide Minimal;
  }

  lemma MinimalLinked(p: Piece, c: seq<Byte>, data: seq<Byte>, positions: seq<nat>)
    requires p.CodeHole? && p.target < |positions| && positions[p.target] < U64_RANGE
             && c == Minimal(positions[p.target])
    ensures Linked(p, c, data, positions)
  {}

  lemma CycleDone(prog: seq<Instruction>, cs0: seq<seq<Byte>>, cs: seq<seq<Byte>>, cut: seq<seq<Byte>>, ch: seq<nat>,
                  plan: seq<Cut>, data: seq<Byte>, code0: seq<Byte>, positions: seq<nat>, relocates: seq<nat>)
    requires Consistent(prog, cs0, ch, data, code0, positions, relocates)
    requires Planned(cs0, cs, cut, ch, |ch|, plan) && Shortened(Pieces(prog), cs0, cut, ch, |ch|, positions)
    requires |Flat(cs)| == |code0|
    ensures Ready(prog, cs, cut, ch, ch, plan, data, Flat(cs), positions, relocates)
  {
    hide Pieces, Flat, Addr, Minimal, Groups, Padded;
    var ps := Pieces(prog);
    assert ch[..|ch|] == ch;
    PlannedDone(cs0, cs, cut, ch, plan);
    forall k | 0 <= k < |ps|
      ensures Linked(ps[k], cut[k], data, positions) && (ps[k].CodeHole? ==> |cut[k]| <= MAX_U64_ENCODED_BYTES)
    {
      assert Linked(ps[k], cs0[k], data, positions);
      if k in ch {
        var i :| 0 <= i < |ch| && ch[i] == k;
        MinimalLinked(ps[k], cut[k], data, positions);
      }
    }
  }

  /** If nothing was removed, every hole was already as short as its address allows. */
  lemma {:induction false} NothingRemoved(plan: seq<Cut>, i: nat)
    requires forall q :: 0 <= q < |plan| ==> plan[q].next <= plan[q].prev
    requires Total(plan) == 0 && i < |plan|
    ensures plan[i].prev == plan[i].next
  {
    if i > 0 {
      NothingRemoved(plan[1..], i - 1);
    }
  }

  lemma SettledIsTight(prog: seq<Instruction>, cs0: seq<seq<Byte>>, cs: seq<seq<Byte>>, cut: seq<seq<Byte>>,
                       now: seq<seq<Byte>>, ch: seq<nat>, plan: seq<Cut>, positions: seq<nat>, after: seq<nat>)
    requires Planned(cs0, cs, cut, ch, |ch|, plan) && Shortened(Pieces(prog), cs0, cut, ch, |ch|, positions)
    requires forall q :: 0 <= q < |plan| ==> plan[q].next <= plan[q].prev
    requires |now| == |cut| && forall k :: 0 <= k < |cut| ==> |now[k]| == |cut[k]|
    requires after == positions
    ensures Tight(Pieces(prog), now, after)
  {
    hide Pieces, Addr;
    var ps := Pieces(prog);
    forall k | 0 <= k < |ps| && ps[k].CodeHole?
      ensures ps[k].target < |positions| ==> |now[k]| <= Groups(positions[ps[k].target])
    {
      var i :| 0 <= i < |ch| && ch[i] == k;
    }
  }

  lemma {:induction false} NothingBefore(plan: seq<Cut>, p: nat)
    requires forall q :: 0 <= q < |plan| ==> plan[q].next <= plan[q].prev
    requires Total(plan) == 0
    ensures Before(plan, p) == 0
  {
    if plan != [] {
      NothingBefore(plan[1..], p);
    }
  }

  lemma Unmoved(plan: seq<Cut>, positions0: seq<nat>, positions: seq<nat>)
    requires forall q :: 0 <= q < |plan| ==> plan[q].next <= plan[q].prev
    requires Total(plan) == 0 && |positions| == |positions0|
    requires forall i :: 0 <= i < |positions| ==> positions[i] + Before(plan, positions0[i]) == positions0[i]
    ensures positions == positions0
  {
    forall i | 0 <= i < |positions| ensures positions[i] == positions0[i] {
      NothingBefore(plan, positions0[i]);
    }
  }

  /** One shrinking cycle: re-encode every code operand as short as it can be, and close the gaps. The
      code never grows, and if it did not shrink every code operand is minimal. */
  method ShrinkCycle(prog: seq<Instruction>, relocates0: seq<nat>, code0: seq<Byte>, positions0: seq<nat>,
                     ghost cs0: seq<seq<Byte>>, ghost ch: seq<nat>, ghost data: seq<Byte>)
    returns (relocates: seq<nat>, code: seq<Byte>, positions: seq<nat>, delta: nat, ghost now: seq<seq<Byte>>)
    requires Consistent(prog, cs0, ch, data, code0, positions0, relocates0)
    ensures Consistent(prog, now, ch, data, code, positions, relocates)
    ensures |code| + delta == |code0|
    ensures delta == 0 ==> Tight(Pieces(prog), now, positions)
  {
    hide *;
    ghost var ps := Pieces(prog);
    ghost var cs, cut := cs0, cs0;
    var plan: seq<Cut>;
    plan, code := [], code0;
    ShortenedStart(prog, cs0, ch, data, code0, positions0, relocates0);
    for j := 0 to |relocates0|
      invariant |relocates0| == |ch| && code == Flat(cs) && |code| == |code0|
      invariant Planned(cs0, cs, cut, ch, j, plan) && Shortened(ps, cs0, cut, ch, j, positions0)
    {
      var addr := relocates0[j];
      ConsistentHole(prog, cs0, ch, data, code0, positions0, relocates0, j);
      ghost var h := ch[j];
      PlannedRead(cs0, cs, cut, ch, j, plan);
      ReadHeld(code, addr, positions0[ps[h].target], |cs0[h]|);
      var val, aft := DecodeU64(code, addr);
      var bytes := EncodeU64(val, [], None);
      EncodedMinimal(val, bytes);
      PlannedStep(cs0, cs, cut, ch, j, plan, bytes);
      ShortenedStep(ps, cs0, cut, ch, j, positions0, bytes);
      HoleInside(cs0, cs, cut, ch, j, plan);
      code := Splice(code, addr, bytes);
      plan := plan + [Cut(addr, aft - addr, |bytes|)];
      cs, cut := cs[h := bytes + cs[h][|bytes|..]], cut[h := bytes];
    }
    CycleDone(prog, cs0, cs, cut, ch, plan, data, code0, positions0, relocates0);
    relocates, code, positions, delta,
        now := ApplyShrinkingPlan(prog, plan, relocates0, code, positions0, cs, cut, ch, ch, data);
    if delta == 0 {
      Unmoved(plan, positions0, positions);
      SettledIsTight(prog, cs0, cs, cut, now, ch, plan, positions0, positions);
    }
  }

  lemma EncodedMinimal(val: U64, bytes: seq<Byte>)
    requires bytes == [] + Padded(val, Groups(val))
    ensures bytes == Minimal(val) && 1 <= |bytes| == Groups(val)
  {
    assert bytes == Minimal(val);
  }

  lemma ConsistentRepresents(prog: seq<Instruction>, cs: seq<seq<Byte>>, ch: seq<nat>, data: seq<Byte>,
                             code: seq<Byte>, positions: seq<nat>, relocates: seq<nat>)
    requires Consistent(prog, cs, ch, data, code, positions, relocates) && Linkable(prog)
    ensures Represents(prog, code, data, positions)
  {
    hide Pieces, Linkable, Represents, AllLinked, Placed;
    LinkedRepresents(prog, cs, data, positions);
  }

  /** Links a program: the bytes, the data section, and the byte position of every instruction. The
      result represents the program whatever the number of cycles run, and is never larger than the
      code first emitted. If the last cycle found nothing to shrink, no code operand is wider than the
      address in it needs. */
  method Finalize(prog: seq<Instruction>, pool: Pool)
    returns (code: seq<Byte>, data: seq<Byte>, positions: seq<nat>, settled: bool, ghost cs: seq<seq<Byte>>)
    requires Linkable(prog) && Serves(pool, prog)
    requires Size(Pieces(prog)) < U64_RANGE && PoolSize(pool.backing) < U64_RANGE
    ensures Represents(prog, code, data, positions)
    ensures |code| <= Size(Pieces(prog))
    ensures code == Flat(cs) && (settled ==> Tight(Pieces(prog), cs, positions))
  {
    hide *;
    ghost var cut, holes, ch;
    var infos;
    code, infos, positions, cs, holes := Emit(prog, pool);
    SizeEmitted(Pieces(prog), cs, holes, infos, code, pool);
    var starts;
    data, starts := FlattenPool(pool);
    var plan, relocates;
    plan, relocates, code, cs, cut, ch := FirstPass(prog, infos, code, positions, pool, data, starts, cs, holes);
    var delta;
    relocates, code, positions, delta,
        cs := ApplyShrinkingPlan(prog, plan, relocates, code, positions, cs, cut, holes, ch, data);
    settled := false;
    for i := 0 to SHRINK_CYCLES
      invariant Consistent(prog, cs, ch, data, code, positions, relocates)
      invariant |code| <= Size(Pieces(prog)) && !settled
    {
      relocates, code, positions, delta, cs := ShrinkCycle(prog, relocates, code, positions, cs, ch, data);
      if delta == 0 {
        settled := true;
        break;
      }
    }
    ConsistentRepresents(prog, cs, ch, data, code, positions, relocates);
    ConsistentFlat(prog, cs, ch, data, code, positions, relocates);
  }

  lemma ConsistentFlat(prog: seq<Instruction>, cs: seq<seq<Byte>>, ch: seq<nat>, data: seq<Byte>, code: seq<Byte>,
                       positions: seq<nat>, relocates: seq<nat>)
    requires Consistent(prog, cs, ch, data, code, positions, relocates)
    ensures code == Flat(cs)
  {
    hide Pieces, Flat, Addr;
  }

  lemma SizeEmitted(ps: seq<Piece>, cs: seq<seq<Byte>>, holes: seq<nat>, infos: seq<RelocateInfo>, code: seq<Byte>,
                    pool: Pool)
    requires Emitted(ps, cs, holes, infos, code, pool)
    ensures |code| == Size(ps)
  {}
}
