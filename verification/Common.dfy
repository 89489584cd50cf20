/** Types shared by every part of the model. */
module Common {

  datatype Option<+T> = None | Some(value: T)

  datatype Result<+T, +E> = Ok(value: T) | Err(error: E)

  /** One byte of code, data or UTF-8 text. */
  type Byte = b: nat | b < 256

  /** UTF-8 text, as the bytes the linker stores. */
  type Str = seq<Byte>

  /** One past the largest 64-bit unsigned value. */
  const U64_RANGE: nat := 0x1_0000_0000_0000_0000

  type U64 = v: nat | v < U64_RANGE

  type I32 = v: int | -0x8000_0000 <= v < 0x8000_0000
}

/** Counting in finite sets. */
module FiniteSets {
  ghost function UpTo(n: nat): (r: set<nat>)
    ensures |r| == n && forall i :: i in r <==> 0 <= i < n
  {
    if n == 0 then {} else UpTo(n - 1) + {n - 1}
  }

  lemma {:induction false} SubsetSize<T>(a: set<T>, b: set<T>)
    requires a <= b
    ensures |a| <= |b|
  {
    if a != {} {
      var x :| x in a;
      SubsetSize(a - {x}, b - {x});
    }
  }
}
