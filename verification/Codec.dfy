/** Reading and writing single instructions. Writing leaves holes for addresses; reading accepts an
    address of any width. */
module Codec {
  import opened Common
  import opened Varint
  import opened Bytecode

  // ----- IEEE numbers are stored byte-swapped, so that round values stay short -----

  function Digits(v: nat, n: nat): (s: seq<Byte>)
    ensures |s| == n
  {
    if n == 0 then [] else [v % 256] + Digits(v / 256, n - 1)
  }

  function Number(s: seq<Byte>): nat {
    if s == [] then 0 else s[0] + 256 * Number(s[1..])
  }

  function Reversed(s: seq<Byte>): (r: seq<Byte>)
    ensures |r| == |s|
    ensures forall i :: 0 <= i < |s| ==> r[i] == s[|s| - 1 - i]
  {
    if s == [] then [] else Reversed(s[1..]) + [s[0]]
  }

  function Power256(n: nat): nat {
    if n == 0 then 1 else 256 * Power256(n - 1)
  }

  lemma {:induction false} NumberBound(s: seq<Byte>)
    ensures Number(s) < Power256(|s|)
  {
    if s != [] {
      NumberBound(s[1..]);
    }
  }

  function SwapBytes(v: U64): (u: U64) {
    var s := Reversed(Digits(v, 8));
    NumberBound(s);
    assert Power256(8) == U64_RANGE by {
      assert Power256(4) == 0x1_0000_0000;
    }
    Number(s)
  }

  lemma {:induction false} NumberDigits(v: nat, n: nat)
    requires v < Power256(n)
    ensures Number(Digits(v, n)) == v
  {
    if n > 0 {
      NumberDigits(v / 256, n - 1);
      assert Digits(v, n)[1..] == Digits(v / 256, n - 1);
    }
  }

  lemma {:induction false} DigitsNumber(s: seq<Byte>)
    ensures Digits(Number(s), |s|) == s
  {
    if s != [] {
      DigitsNumber(s[1..]);
      assert Number(s) % 256 == s[0] && Number(s) / 256 == Number(s[1..]);
    }
  }

  /** Swapping the bytes twice gives the number back. */
  lemma SwapTwice(v: U64)
    ensures SwapBytes(SwapBytes(v)) == v
  {
    var d := Digits(v, 8);
    DigitsNumber(Reversed(d));
    assert Reversed(Reversed(d)) == d;
    assert Power256(4) == 0x1_0000_0000;
    assert Power256(8) == U64_RANGE;
    NumberDigits(v, 8);
  }

  // ----- writing -----

  /** Operands the writer can store: counts must fit 64 bits. */
  predicate Storable(o: Operand) {
    match o
    case Count(n) => n < U64_RANGE
    case Length(len) => len.Fixed? ==> len.count + 1 < U64_RANGE
    case Text(text) => |text| < U64_RANGE
    case Address(target) => target < U64_RANGE
    case _ => true
  }

  function LengthCode(len: VariadicLen): nat {
    match len case Fixed(n) => n + 1 case Dynamic => 0
  }

  /** The bytes of an operand that needs no relocation. */
  function PlainBytes(o: Operand): (bytes: seq<Byte>)
    requires !o.Address? && !o.Text?
    ensures |bytes| >= 1
  {
    match o
    case Small(b) => [b]
    case Flag(f) => [if f then 1 else 0]
    case Count(n) => Minimal(n)
    case Folded(i) => Minimal(FoldSign(i))
    case Float(u) => Minimal(SwapBytes(u))
    case Rgba(c) => [c.a, c.r, c.g, c.b]
    case Length(len) => Minimal(LengthCode(len))
  }

  // ----- reading -----

  /** A text operand: its position in the data, then its length. */
  function ReadText(code: seq<Byte>, data: seq<Byte>, start: nat): Option<(Operand, nat)>
    requires start <= |code|
  {
    var pos := Read(code, start);
    var len := Read(code, pos.1);
    if pos.0 + len.0 > |data| then None else Some((Text(data[pos.0..pos.0 + len.0]), len.1))
  }

  function ReadColor(code: seq<Byte>, start: nat): Option<(Operand, nat)> {
    if start + 4 > |code| then None
    else Some((Rgba(Color(code[start], code[start + 1], code[start + 2], code[start + 3])), start + 4))
  }

  /** The operand that a single varint stands for. */
  function FromVarint(kind: Kind, v: U64): Operand {
    match kind
    case KFolded => Folded(UnfoldSign(v))
    case KFloat => Float(SwapBytes(v))
    case KLength => Length(if v == 0 then Dynamic else Fixed(v - 1))
    case KAddress => Address(v)
    case _ => Count(v)
  }

  function ReadOperand(code: seq<Byte>, data: seq<Byte>, kind: Kind, start: nat): (r: Option<(Operand, nat)>)
    ensures r.Some? ==> KindOf(r.value.0) == kind && start <= r.value.1
  {
    if start >= |code| then None
    else match kind {
      case KSmall => Some((Small(code[start]), start + 1))
      case KFlag => Some((Flag(code[start] != 0), start + 1))
      case KRgba => ReadColor(code, start)
      case KText => ReadText(code, data, start)
      case _ =>
        var v := Read(code, start);
        Some((FromVarint(kind, v.0), v.1))
    }
  }

  function ReadOperands(code: seq<Byte>, data: seq<Byte>, kinds: seq<Kind>,
                        start: nat): (r: Option<(seq<Operand>, nat)>)
    ensures r.Some? ==> |r.value.0| == |kinds| && forall i :: 0 <= i < |kinds| ==> KindOf(r.value.0[i]) == kinds[i]
    decreases |kinds|
  {
    if kinds == [] then Some(([], start))
    else
      var first := ReadOperand(code, data, kinds[0], start);
      if first.None? then None
      else
        var rest := ReadOperands(code, data, kinds[1..], first.value.1);
        if rest.None? then None else Some(([first.value.0] + rest.value.0, rest.value.1))
  }

  /** Every opcode has at most three operands. */
  lemma ShapeBound(op: Byte)
    ensures |Shape(op)| <= 3
  {}

  /** The instruction at a byte position and the position after it. */
  function ReadInstruction(code: seq<Byte>, data: seq<Byte>, start: nat): Option<(Instruction, nat)> {
    if start >= |code| then None
    else
      var xs := ReadOperands(code, data, Shape(code[start]), start + 1);
      if xs.None? then None
      else
        ShapeBound(code[start]);
        var ins := Build(code[start], xs.value.0);
        if ins.None? then None else Some((ins.value, xs.value.1))
  }

  // ----- reading back what was written -----

  /** `bytes` is a coding of operand `o`: an address may be padded, a text is named by its position in
      the data followed by its length. */
  ghost predicate Encodes(bytes: seq<Byte>, data: seq<Byte>, o: Operand) {
    match o
    case Address(target) => Groups(target) <= |bytes| && target < U64_RANGE && bytes == Padded(target, |bytes|)
    case Text(text) => |text| < U64_RANGE && exists at: seq<Byte> {:trigger at + Minimal(|text|)} ::
      bytes == at + Minimal(|text|) && NamesText(at, data, text)
    case _ => bytes == PlainBytes(o)
  }

  /** `at` codes a data position where `text` is stored. */
  ghost predicate NamesText(at: seq<Byte>, data: seq<Byte>, text: Str) {
    exists pos: U64 {:trigger Groups(pos)} ::
      Groups(pos) <= |at| && at == Padded(pos, |at|) && pos + |text| <= |data| && data[pos..pos + |text|] == text
  }

  /** `part` lies in `whole` at `start`. */
  predicate Holds(whole: seq<Byte>, start: nat, part: seq<Byte>) {
    start + |part| <= |whole| && whole[start..start + |part|] == part
  }

  lemma HoldsParts(whole: seq<Byte>, start: nat, x: seq<Byte>, y: seq<Byte>)
    requires Holds(whole, start, x + y)
    ensures Holds(whole, start, x) && Holds(whole, start + |x|, y)
  {
    var z := x + y;
    assert whole[start..start + |x|] == z[..|x|];
    assert whole[start + |x|..start + |x| + |y|] == z[|x|..];
  }

  lemma ReadHeld(code: seq<Byte>, start: nat, v: U64, n: nat)
    requires Groups(v) <= n && Holds(code, start, Padded(v, n))
    ensures start + n <= |code| && Read(code, start) == (v, start + n)
  {
    ReadAt(code, start, v, n);
  }

  lemma ReadTextParts(code: seq<Byte>, data: seq<Byte>, start: nat, pos: U64, mid: nat, text: Str, aft: nat)
    requires start <= |code| && Read(code, start) == (pos, mid) && |text| < U64_RANGE
    requires Read(code, mid) == (|text|, aft)
    requires pos + |text| <= |data| && data[pos..pos + |text|] == text
    ensures ReadText(code, data, start) == Some((Text(text), aft))
  {}

  lemma ReadNamedText(code: seq<Byte>, data: seq<Byte>, start: nat, pos: U64, width: nat, text: Str, lenWidth: nat)
    requires Groups(pos) <= width && |text| < U64_RANGE && Groups(|text|) <= lenWidth
    requires Holds(code, start, Padded(pos, width)) && Holds(code, start + width, Padded(|text|, lenWidth))
    requires pos + |text| <= |data| && data[pos..pos + |text|] == text
    ensures ReadText(code, data, start) == Some((Text(text), start + width + lenWidth))
  {
    hide *;
    ReadHeld(code, start, pos, width);
    ReadHeld(code, start + width, |text|, lenWidth);
    ReadTextParts(code, data, start, pos, start + width, text, start + width + lenWidth);
  }

  lemma ReadTextBack(code: seq<Byte>, data: seq<Byte>, start: nat, bytes: seq<Byte>, text: Str)
    requires Encodes(bytes, data, Text(text))
    requires Holds(code, start, bytes)
    ensures ReadText(code, data, start) == Some((Text(text), start + |bytes|))
  {
    var at: seq<Byte> :| bytes == at + Minimal(|text|) && NamesText(at, data, text);
    var pos: U64 :| Groups(pos) <= |at| && at == Padded(pos, |at|) && pos + |text| <= |data|
      && data[pos..pos + |text|] == text;
    HoldsParts(code, start, at, Minimal(|text|));
    ReadNamedText(code, data, start, pos, |at|, text, Groups(|text|));
  }

  lemma ReadVarintBack(code: seq<Byte>, data: seq<Byte>, start: nat, bytes: seq<Byte>, o: Operand)
    requires o.Count? || o.Folded? || o.Float? || o.Length? || o.Address?
    requires Storable(o) && Encodes(bytes, data, o)
    requires Holds(code, start, bytes)
    ensures ReadOperand(code, data, KindOf(o), start) == Some((o, start + |bytes|))
  {
    hide Read, Aft, GroupsValue, Padded, Groups, FoldSign, UnfoldSign, SwapBytes;
    match o
    case Count(n) => ReadAt(code, start, n, |bytes|);
    case Folded(i) => ReadAt(code, start, FoldSign(i), |bytes|); FoldRoundTrip(i);
    case Float(u) => ReadAt(code, start, SwapBytes(u), |bytes|); SwapTwice(u);
    case Length(len) => ReadAt(code, start, LengthCode(len), |bytes|);
    case Address(target) => ReadAt(code, start, target, |bytes|);
  }

  /** An operand reads back from any coding of it. */
  lemma ReadOperandBack(code: seq<Byte>, data: seq<Byte>, start: nat, bytes: seq<Byte>, o: Operand)
    requires Storable(o) && Encodes(bytes, data, o)
    requires Holds(code, start, bytes)
    ensures ReadOperand(code, data, KindOf(o), start) == Some((o, start + |bytes|))
  {
    assert forall k :: 0 <= k < |bytes| ==> code[start + k] == bytes[k] by {
      forall k | 0 <= k < |bytes| ensures code[start + k] == bytes[k] {
        assert code[start..start + |bytes|][k] == bytes[k];
      }
    }
    match o
    case Small(b) => assert code[start + 0] == bytes[0];
    case Flag(f) => assert code[start + 0] == bytes[0];
    case Rgba(c) =>
      assert code[start + 0] == bytes[0] && code[start + 1] == bytes[1] && code[start + 2] == bytes[2]
             && code[start + 3] == bytes[3];
    case Text(text) => ReadTextBack(code, data, start, bytes, text);
    case _ => ReadVarintBack(code, data, start, bytes, o);
  }

  /** Concatenation of a list of byte strings. */
  function Flat(cs: seq<seq<Byte>>): seq<Byte> {
    if cs == [] then [] else cs[0] + Flat(cs[1..])
  }

  ghost predicate EncodesAll(cs: seq<seq<Byte>>, data: seq<Byte>, xs: seq<Operand>)
    decreases |xs|
  {
    && |cs| == |xs|
    && (xs != [] ==> Storable(xs[0]) && Encodes(cs[0], data, xs[0]) && EncodesAll(cs[1..], data, xs[1..]))
  }

  lemma ReadOperandsCons(code: seq<Byte>, data: seq<Byte>, start: nat, kinds: seq<Kind>, mid: nat, xs: seq<Operand>,
                         aft: nat)
    requires |xs| == |kinds| > 0
    requires ReadOperand(code, data, kinds[0], start) == Some((xs[0], mid))
    requires ReadOperands(code, data, kinds[1..], mid) == Some((xs[1..], aft))
    ensures ReadOperands(code, data, kinds, start) == Some((xs, aft))
  {
    assert [xs[0]] + xs[1..] == xs;
  }

  lemma EncodesHead(cs: seq<seq<Byte>>, data: seq<Byte>, xs: seq<Operand>)
    requires EncodesAll(cs, data, xs) && xs != []
    ensures |cs| == |xs| && Storable(xs[0]) && Encodes(cs[0], data, xs[0]) && EncodesAll(cs[1..], data, xs[1..])
    ensures Flat(cs) == cs[0] + Flat(cs[1..])
  {}

  lemma ReadNoOperands(code: seq<Byte>, data: seq<Byte>, start: nat, cs: seq<seq<Byte>>, kinds: seq<Kind>)
    requires EncodesAll(cs, data, []) && kinds == []
    ensures ReadOperands(code, data, kinds, start) == Some(([], start + |Flat(cs)|))
  {}

  lemma {:induction false} ReadOperandsBack(code: seq<Byte>, data: seq<Byte>, start: nat, cs: seq<seq<Byte>>,
                                            xs: seq<Operand>, kinds: seq<Kind>)
    requires EncodesAll(cs, data, xs)
    requires |kinds| == |xs| && forall i :: 0 <= i < |xs| ==> KindOf(xs[i]) == kinds[i]
    requires Holds(code, start, Flat(cs))
    ensures ReadOperands(code, data, kinds, start) == Some((xs, start + |Flat(cs)|))
    decreases |xs|
  {
    hide *;
    if xs != [] {
      EncodesHead(cs, data, xs);
      var mid := start + |cs[0]|;
      HoldsParts(code, start, cs[0], Flat(cs[1..]));
      ReadOperandBack(code, data, start, cs[0], xs[0]);
      ReadOperandsBack(code, data, mid, cs[1..], xs[1..], kinds[1..]);
      ReadOperandsCons(code, data, start, kinds, mid, xs, start + |Flat(cs)|);
    } else {
      ReadNoOperands(code, data, start, cs, kinds);
    }
  }

  lemma ReadInstructionParts(code: seq<Byte>, data: seq<Byte>, start: nat, op: Byte, xs: seq<Operand>, aft: nat,
                             ins: Instruction)
    requires start < |code| && code[start] == op
    requires ReadOperands(code, data, Shape(op), start + 1) == Some((xs, aft))
    requires Shaped(op, xs) && Build(op, xs) == Some(ins)
    ensures ReadInstruction(code, data, start) == Some((ins, aft))
  {}

  lemma ShapedKinds(op: Byte, xs: seq<Operand>)
    requires Shaped(op, xs)
    ensures |xs| == |Shape(op)| && forall i :: 0 <= i < |xs| ==> KindOf(xs[i]) == Shape(op)[i]
  {}

  lemma ReadPartsBack(code: seq<Byte>, data: seq<Byte>, start: nat, cs: seq<seq<Byte>>, op: Byte, xs: seq<Operand>,
                      ins: Instruction)
    requires EncodesAll(cs, data, xs)
    requires Shaped(op, xs) && Build(op, xs) == Some(ins)
    requires start < |code| && code[start] == op && Holds(code, start + 1, Flat(cs))
    ensures ReadInstruction(code, data, start) == Some((ins, start + 1 + |Flat(cs)|))
  {
    hide *;
    var aft := start + 1 + |Flat(cs)|;
    ShapedKinds(op, xs);
    ReadOperandsBack(code, data, start + 1, cs, xs, Shape(op));
    ReadInstructionParts(code, data, start, op, xs, aft, ins);
  }

  /** An instruction reads back from its opcode followed by any codings of its operands. */
  lemma ReadInstructionBack(code: seq<Byte>, data: seq<Byte>, start: nat, cs: seq<seq<Byte>>, ins: Instruction)
    requires EncodesAll(cs, data, Operands(ins))
    requires start < |code| && code[start] == Opcode(ins) && Holds(code, start + 1, Flat(cs))
    ensures ReadInstruction(code, data, start) == Some((ins, start + 1 + |Flat(cs)|))
  {
    hide *;
    TableAgrees(ins);
    ReadPartsBack(code, data, start, cs, Opcode(ins), Operands(ins), ins);
  }
}
