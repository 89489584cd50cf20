/** The variable-width integer coding of the linker: seven bits per byte, low bits first, with the
    top bit of every byte but the last set. A value may be padded to more bytes than it needs,
    which is what leaves room for relocation. */
module Varint {
  import opened Common

  /** Width of a relocation hole, enough for every 64-bit value. */
  const MAX_U64_ENCODED_BYTES: nat := 10

  /** Number of significant bits. */
  function BitLength(v: nat): nat {
    if v == 0 then 0 else 1 + BitLength(v / 2)
  }

  /** Number of seven-bit groups needed for a value, at least one. */
  function Groups(v: nat): (n: nat)
    ensures n >= 1
  {
    if v < 128 then 1 else 1 + Groups(v / 128)
  }

  /** The coding of `v` in exactly `n` bytes. */
  function Padded(v: nat, n: nat): (bytes: seq<Byte>)
    requires Groups(v) <= n
    ensures |bytes| == n
    decreases n
  {
    if n == 1 then [v] else [128 + v % 128] + Padded(v / 128, n - 1)
  }

  /** The shortest coding. */
  function Minimal(v: nat): (bytes: seq<Byte>)
    ensures |bytes| == Groups(v)
  {
    Padded(v, Groups(v))
  }

  /** Position just after the varint that starts at `start`; a varint cut off by the end of the
      buffer ends there. */
  function Aft(data: seq<Byte>, start: nat): (aft: nat)
    requires start <= |data|
    ensures start <= aft <= |data|
    decreases |data| - start
  {
    if start == |data| then start
    else if data[start] < 128 then start + 1
    else Aft(data, start + 1)
  }

  /** Value of a run of groups, low group first, with the overflow of a 64-bit shift. */
  function GroupsValue(bytes: seq<Byte>): (v: U64) {
    if bytes == [] then 0
    else GroupsValue(bytes[1..]) * 128 % U64_RANGE + bytes[0] % 128
  }

  /** What reading a varint at `start` yields: the value and the position after it. */
  function Read(data: seq<Byte>, start: nat): (r: (U64, nat))
    requires start <= |data|
    ensures start <= r.1 <= |data|
  {
    var aft := Aft(data, start);
    (GroupsValue(data[start..aft]), aft)
  }

  // ----- the group count -----

  lemma {:induction false} BitLengthShift(v: nat)
    requires v >= 128
    ensures BitLength(v) == 7 + BitLength(v / 128)
  {
    assert v / 2 / 2 / 2 / 2 / 2 / 2 / 2 == v / 128;
    assert BitLength(v / 2) == 1 + BitLength(v / 2 / 2);
    assert BitLength(v / 2 / 2) == 1 + BitLength(v / 2 / 2 / 2);
    assert BitLength(v / 2 / 2 / 2) == 1 + BitLength(v / 2 / 2 / 2 / 2);
    assert BitLength(v / 2 / 2 / 2 / 2) == 1 + BitLength(v / 2 / 2 / 2 / 2 / 2);
    assert BitLength(v / 2 / 2 / 2 / 2 / 2) == 1 + BitLength(v / 2 / 2 / 2 / 2 / 2 / 2);
    assert BitLength(v / 2 / 2 / 2 / 2 / 2 / 2) == 1 + BitLength(v / 2 / 2 / 2 / 2 / 2 / 2 / 2);
  }

  lemma {:induction false} SmallBitLength(v: nat)
    requires 0 < v < 128
    ensures 1 <= BitLength(v) <= 7
  {
    var w := v / 2;
    assert BitLength(v) == 1 + BitLength(w);
    if w > 0 {
      assert BitLength(w) == 1 + BitLength(w / 2);
      if w / 2 > 0 {
        assert BitLength(w / 2) == 1 + BitLength(w / 4);
        if w / 4 > 0 {
          assert BitLength(w / 4) == 1 + BitLength(w / 8);
          if w / 8 > 0 {
            assert BitLength(w / 8) == 1 + BitLength(w / 16);
            if w / 16 > 0 {
              assert BitLength(w / 16) == 1 + BitLength(w / 32);
              assert BitLength(w / 32) <= 1;
            }
          }
        }
      }
    }
  }

  /** The leading-zeros formula of the encoder counts exactly the groups of the value. */
  lemma {:induction false} BlocksAreGroups(v: nat)
    ensures (if (BitLength(v) + 6) / 7 >= 1 then (BitLength(v) + 6) / 7 else 1) == Groups(v)
    decreases v
  {
    if v == 0 {
    } else if v < 128 {
      SmallBitLength(v);
    } else {
      BitLengthShift(v);
      BlocksAreGroups(v / 128);
      if v / 128 < 128 {
        SmallBitLength(v / 128);
      } else {
        BitLengthShift(v / 128);
      }
    }
  }

  /** A larger value never needs fewer bytes: a shrunk address always fits its old hole. */
  lemma {:induction false} GroupsMonotone(v: nat, w: nat)
    requires v <= w
    ensures Groups(v) <= Groups(w)
    decreases w
  {
    if v >= 128 {
      GroupsMonotone(v / 128, w / 128);
    }
  }

  /** Every 64-bit value fits a relocation hole. */
  lemma {:induction false} GroupsBound(v: U64)
    ensures Groups(v) <= MAX_U64_ENCODED_BYTES
  {
    GroupsMonotone(v, U64_RANGE - 1);
    assert Groups(U64_RANGE - 1) == 10 by {
      assert Groups(0xFFFF_FFFF_FFFF_FFFF) == 1 + Groups(0x1FF_FFFF_FFFF_FFFF);
      assert Groups(0x1FF_FFFF_FFFF_FFFF) == 1 + Groups(0x3_FFFF_FFFF_FFFF);
      assert Groups(0x3_FFFF_FFFF_FFFF) == 1 + Groups(0x7FF_FFFF_FFFF);
      assert Groups(0x7FF_FFFF_FFFF) == 1 + Groups(0xF_FFFF_FFFF);
      assert Groups(0xF_FFFF_FFFF) == 1 + Groups(0x1FFF_FFFF);
      assert Groups(0x1FFF_FFFF) == 1 + Groups(0x3F_FFFF);
      assert Groups(0x3F_FFFF) == 1 + Groups(0x7FFF);
      assert Groups(0x7FFF) == 1 + Groups(0xFF);
      assert Groups(0xFF) == 1 + Groups(1);
    }
  }

  // ----- reading back -----

  lemma {:induction false} AftPadded(v: nat, n: nat, prefix: seq<Byte>, suffix: seq<Byte>)
    requires Groups(v) <= n
    ensures Aft(prefix + Padded(v, n) + suffix, |prefix|) == |prefix| + n
    decreases n
  {
    var data := prefix + Padded(v, n) + suffix;
    if n > 1 {
      var longer := prefix + [128 + v % 128];
      assert data == longer + Padded(v / 128, n - 1) + suffix;
      AftPadded(v / 128, n - 1, longer, suffix);
    }
  }

  lemma {:induction false} ValuePadded(v: U64, n: nat)
    requires Groups(v) <= n
    ensures GroupsValue(Padded(v, n)) == v
    decreases n
  {
    if n == 1 {
      assert Padded(v, n)[1..] == [];
    } else {
      ValuePadded(v / 128, n - 1);
      assert Padded(v, n)[1..] == Padded(v / 128, n - 1);
      assert v / 128 * 128 < U64_RANGE;
      assert (128 + v % 128) % 128 == v % 128;
    }
  }

  /** Reading back: a value padded to any width that holds it is read back exactly, and the reader
      stops right behind it, whatever surrounds it. */
  lemma {:induction false} RoundTrip(v: U64, n: nat, prefix: seq<Byte>, suffix: seq<Byte>)
    requires Groups(v) <= n
    ensures Read(prefix + Padded(v, n) + suffix, |prefix|) == (v, |prefix| + n)
  {
    var data := prefix + Padded(v, n) + suffix;
    AftPadded(v, n, prefix, suffix);
    assert data[|prefix|..|prefix| + n] == Padded(v, n);
    ValuePadded(v, n);
  }

  /** The same, for a value found inside a buffer. */
  lemma {:induction false} ReadAt(data: seq<Byte>, start: nat, v: U64, n: nat)
    requires Groups(v) <= n
    requires start + n <= |data| && data[start..start + n] == Padded(v, n)
    ensures Read(data, start) == (v, start + n)
  {
    assert data == data[..start] + Padded(v, n) + data[start + n..];
    RoundTrip(v, n, data[..start], data[start + n..]);
  }

  // ----- the encoder and the decoder -----

  /** Appends the coding of `val0` to `out0`, in `bytes` bytes when a width is forced. */
  method EncodeU64(val0: U64, out0: seq<Byte>, bytes: Option<nat>) returns (out: seq<Byte>)
    requires bytes.Some? ==> Groups(val0) <= bytes.value <= MAX_U64_ENCODED_BYTES
    ensures out == out0 + Padded(val0, if bytes.Some? then bytes.value else Groups(val0))
  {
    var val: nat := val0;
    out := out0;
    BlocksAreGroups(val);
    var bits := (BitLength(val) + 6) / 7;
    var blocks := if bits >= 1 then bits else 1;
    if bytes.Some? {
      blocks := bytes.value;
    }
    for i := 1 to blocks
      invariant Groups(val) <= blocks - i + 1
      invariant out + Padded(val, blocks - i + 1) == out0 + Padded(val0, blocks)
    {
      ghost var before := out;
      assert Padded(val, blocks - i + 1) == [128 + val % 128] + Padded(val / 128, blocks - i);
      out := out + [val % 128 + 128];
      assert before + ([128 + val % 128] + Padded(val / 128, blocks - i)) == out + Padded(val / 128, blocks - i);
      val := val / 128;
    }
    out := out + [val];
  }

  /** Reads the varint that starts at `start`. */
  method DecodeU64(data: seq<Byte>, start: nat) returns (val: U64, aft: nat)
    requires start <= |data|
    ensures (val, aft) == Read(data, start)
  {
    aft := start;
    var more := true;
    while more && aft < |data|
      invariant start <= aft <= |data|
      invariant more ==> Aft(data, aft) == Aft(data, start)
      invariant !more ==> aft == Aft(data, start)
      decreases more, |data| - aft
    {
      more := data[aft] >= 128;
      aft := aft + 1;
    }
    val := 0;
    var i := aft;
    while i > start
      invariant start <= i <= aft
      invariant val == GroupsValue(data[i..aft])
    {
      i := i - 1;
      assert data[i..aft][1..] == data[i + 1..aft];
      val := val * 128 % U64_RANGE + data[i] % 128;
    }
  }

  // ----- sign folding -----

  /** The unsigned form of a 32-bit integer: sign-extended to 64 bits, shifted up one bit, and
      complemented when negative. */
  function FoldSign(i: I32): (u: U64) {
    var extended: nat := if i >= 0 then i else U64_RANGE + i;
    var shifted := extended * 2 % U64_RANGE;
    if shifted < U64_RANGE / 2 then shifted else U64_RANGE - 1 - shifted
  }

  /** The inverse: the low bit says whether to complement the truncated 32-bit value. */
  function UnfoldSign(raw: U64): (i: I32) {
    var v: nat := raw / 2 % 0x1_0000_0000;
    var w: nat := if raw % 2 == 0 then v else 0xFFFF_FFFF - v;
    if w < 0x8000_0000 then w else w - 0x1_0000_0000
  }

  /** Folding is undone exactly, over the whole 32-bit range. */
  lemma FoldRoundTrip(i: I32)
    ensures UnfoldSign(FoldSign(i)) == i
  {
    if i < 0 {
      var m: nat := -1 - i;
      assert (U64_RANGE + i) * 2 % U64_RANGE == U64_RANGE + 2 * i;
      assert FoldSign(i) == 2 * m + 1;
      assert (2 * m + 1) / 2 == m;
      assert m % 0x1_0000_0000 == m;
    } else {
      assert i * 2 % U64_RANGE == 2 * i;
      assert FoldSign(i) == 2 * i;
    }
  }
}
