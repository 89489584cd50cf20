/** The table from code positions to block locations: texts kept as numbers behind a common prefix, and looked up
    by binary search. Overflow wraps around, and debug assertions are off, as in a release build. */
module Locations {
  import opened Common
  import opened Varint

  const UNDERSCORE: Byte := 95
  const MINUS: Byte := 45
  const PLUS: Byte := 43

  const ISIZE_MIN := -0x8000_0000_0000_0000
  const ISIZE_MAX := 0x7FFF_FFFF_FFFF_FFFF

  type Isize = v: int | ISIZE_MIN <= v <= ISIZE_MAX witness 0

  // ----- numbers in decimal -----

  function Numeral(n: nat): (s: Str)
    ensures s != []
  {
    if n < 10 then [48 + n] else Numeral(n / 10) + [48 + n % 10]
  }

  function Decimal(v: int): (s: Str)
    ensures s != []
  {
    if v < 0 then [MINUS] + Numeral(-v) else Numeral(v)
  }

  function ReadNumeral(s: Str): Option<nat>
    decreases |s|
  {
    if s == [] then None
    else
      var n := |s| - 1;
      var d := s[n];
      if !(48 <= d < 58) then None
      else if n == 0 then Some(d - 48)
      else
        var head := ReadNumeral(s[..n]);
        if head.None? then None else Some(head.value * 10 + (d - 48))
  }

  function Signed(negative: bool, n: nat): int {
    if negative then 0 - n else n
  }

  /** A number in any form the parser takes, if it is the form it would be printed in. */
  function ReadToken(s: Str): Option<Isize> {
    var signed := s != [] && (s[0] == MINUS || s[0] == PLUS);
    var n := ReadNumeral(if signed then s[1..] else s);
    if n.None? then None
    else
      var v := Signed(signed && s[0] == MINUS, n.value);
      if ISIZE_MIN <= v <= ISIZE_MAX && Decimal(v) == s then Some(v) else None
  }

  lemma {:induction false} ReadNumeralBack(n: nat)
    ensures ReadNumeral(Numeral(n)) == Some(n)
    ensures forall i :: 0 <= i < |Numeral(n)| ==> 48 <= Numeral(n)[i] < 58
    decreases n
  {
    if n >= 10 {
      ReadNumeralBack(n / 10);
      var s := Numeral(n);
      assert s[..|s| - 1] == Numeral(n / 10);
    }
  }

  /** A token is read exactly when it is the decimal form of a number in range. */
  lemma TokenIs(s: Str, v: int)
    ensures ReadToken(s) == Some(v) <==> ISIZE_MIN <= v <= ISIZE_MAX && s == Decimal(v)
  {
    if s == Decimal(v) {
      if v < 0 {
        ReadNumeralBack(-v);
        assert s[1..] == Numeral(-v);
      } else {
        ReadNumeralBack(v);
      }
    }
  }

  // ----- numbers between underscores -----

  /** The pieces between underscores; there is always at least one. */
  function Split(s: Str): (r: seq<Str>)
    ensures |r| >= 1
  {
    if s == [] then [[]]
    else
      var rest := Split(s[1..]);
      if s[0] == UNDERSCORE then [[]] + rest else [[s[0]] + rest[0]] + rest[1..]
  }

  function Glue(pieces: seq<Str>): Str
    decreases |pieces|
  {
    if pieces == [] then [] else [UNDERSCORE] + pieces[0] + Glue(pieces[1..])
  }

  lemma {:induction false} SplitGlue(s: Str)
    ensures Glue(Split(s)) == [UNDERSCORE] + s
    decreases |s|
  {
    hide *;
    SplitParts(s);
    if s == [] {
      GlueParts([], []);
      var none: seq<Str> := [];
      assert [[]] + none == [[]];
    } else {
      var rest := Split(s[1..]);
      SplitGlue(s[1..]);
      GlueParts(rest[0], rest[1..]);
      assert [rest[0]] + rest[1..] == rest;
      Behind(rest[0], Glue(rest[1..]), s[1..]);
      assert s == [s[0]] + s[1..];
      if s[0] == UNDERSCORE {
        GlueParts([], rest);
        assert [UNDERSCORE] + [] + Glue(rest) == [UNDERSCORE] + s;
      } else {
        GlueParts([s[0]] + rest[0], rest[1..]);
        InFront(s[0], rest[0], Glue(rest[1..]), s[1..]);
      }
    }
  }

  lemma Behind(x: Str, y: Str, z: Str)
    requires [UNDERSCORE] + x + y == [UNDERSCORE] + z
    ensures x + y == z
  {
    assert ([UNDERSCORE] + x + y)[1..] == x + y && ([UNDERSCORE] + z)[1..] == z;
  }

  lemma InFront(c: Byte, x: Str, y: Str, z: Str)
    requires x + y == z
    ensures [UNDERSCORE] + ([c] + x) + y == [UNDERSCORE] + ([c] + z)
  {
  }

  lemma SplitParts(s: Str)
    ensures s == [] ==> Split(s) == [[]]
    ensures s != [] ==> var rest := Split(s[1..]);
                        Split(s) == if s[0] == UNDERSCORE then [[]] + rest else [[s[0]] + rest[0]] + rest[1..]
  {
  }

  lemma GlueParts(piece: Str, pieces: seq<Str>)
    ensures Glue([]) == []
    ensures Glue([piece] + pieces) == [UNDERSCORE] + piece + Glue(pieces)
  {
    assert ([piece] + pieces)[1..] == pieces;
  }

  function ReadTokens(pieces: seq<Str>): Option<seq<Isize>>
    decreases |pieces|
  {
    if pieces == [] then Some([])
    else
      var v := ReadToken(pieces[0]);
      if v.None? then None
      else
        var rest := ReadTokens(pieces[1..]);
        if rest.None? then None else Some([v.value] + rest.value)
  }

  /** The numbers of a location, each behind an underscore. */
  function Spell(vs: seq<Isize>): Str
    decreases |vs|
  {
    if vs == [] then [] else [UNDERSCORE] + Decimal(vs[0]) + Spell(vs[1..])
  }

  lemma {:induction false} TokensSpell(pieces: seq<Str>)
    requires ReadTokens(pieces).Some?
    ensures |ReadTokens(pieces).value| == |pieces| && Spell(ReadTokens(pieces).value) == Glue(pieces)
    decreases |pieces|
  {
    if pieces != [] {
      TokensSpell(pieces[1..]);
      TokenIs(pieces[0], ReadToken(pieces[0]).value);
      var vs := ReadTokens(pieces).value;
      assert vs[1..] == ReadTokens(pieces[1..]).value;
    }
  }

  // ----- reading a location behind a prefix -----

  datatype Reading = Numbers(vs: seq<Isize>) | Rejected | Crash

  /** What is behind the prefix and one more byte, whatever that byte is. There is no text to cut if the location is
      the prefix, or if the cut would go through a character. */
  function ReadLocation(prefix: Str, loc: Str): Reading {
    var n := |prefix|;
    if !(prefix <= loc) then Rejected
    else if |loc| == n || (|loc| > n + 1 && 128 <= loc[n + 1] < 192) then Crash
    else
      var vs := ReadTokens(Split(loc[n + 1..]));
      if vs.None? then Rejected else Numbers(vs.value)
  }

  /** A location that is read is its prefix, one byte, and its numbers between underscores. */
  lemma ReadingSpells(prefix: Str, loc: Str)
    requires ReadLocation(prefix, loc).Numbers?
    ensures var vs := ReadLocation(prefix, loc).vs;
            |loc| > |prefix| && |vs| > 0 && (loc == prefix + Spell(vs) <==> loc[|prefix|] == UNDERSCORE)
            && loc[|prefix| + 1..] == Spell(vs)[1..] && Spell(vs) != [] && Spell(vs)[0] == UNDERSCORE
  {
    var n, vs := |prefix|, ReadLocation(prefix, loc).vs;
    var tail := loc[n + 1..];
    SplitGlue(tail);
    TokensSpell(Split(tail));
    assert loc == prefix + [loc[n]] + tail;
    assert Spell(vs) == [UNDERSCORE] + tail;
    assert (prefix + Spell(vs))[n] == UNDERSCORE;
    assert prefix + ([UNDERSCORE] + tail) == prefix + [UNDERSCORE] + tail;
  }

  // ----- the table -----

  datatype Table = Table(prefix: Str, base: int, tokens: seq<Byte>, locs: seq<(nat, nat)>)

  datatype Outcome = Condensed(table: Table) | Invalid(loc: Str) | Panics

  /** The number a token is stored as; zero ends an entry. */
  function Code(v: Isize, base: Isize): U64 {
    (v - base + 1) % U64_RANGE
  }

  /** What a stored number is read back as, in 64-bit arithmetic. */
  function Back(code: U64, base: Isize): Isize {
    (code - 1 + base - ISIZE_MIN) % U64_RANGE + ISIZE_MIN
  }

  /** Only the largest number over the smallest base is stored as the number that ends an entry. */
  lemma CodeBack(v: Isize, base: Isize)
    requires base <= v
    ensures Code(v, base) == 0 <==> base == ISIZE_MIN && v == ISIZE_MAX
    ensures Code(v, base) != 0 ==> Back(Code(v, base), base) == v
  {
  }

  function EntryBytes(vs: seq<Isize>, base: Isize): seq<Byte>
    decreases |vs|
  {
    if vs == [] then Minimal(0) else Minimal(Code(vs[0], base)) + EntryBytes(vs[1..], base)
  }

  /** The numbers read from `start` on, up to a zero, each behind an underscore. */
  function Spelled(data: seq<Byte>, start: nat, base: Isize): Str
    requires start <= |data|
    decreases |data| - start
  {
    var (v, aft) := Read(data, start);
    if v == 0 || aft == start then [] else [UNDERSCORE] + Decimal(Back(v, base)) + Spelled(data, aft, base)
  }

  /** The numbers before the first that is stored as zero. */
  function Visible(vs: seq<Isize>, base: Isize): seq<Isize>
    decreases |vs|
  {
    if vs == [] || Code(vs[0], base) == 0 then [] else [vs[0]] + Visible(vs[1..], base)
  }

  lemma ReadMinimal(data: seq<Byte>, start: nat, v: U64)
    requires start + |Minimal(v)| <= |data| && data[start..start + |Minimal(v)|] == Minimal(v)
    ensures Read(data, start) == (v, start + |Minimal(v)|) && |Minimal(v)| > 0
  {
    ReadAt(data, start, v, Groups(v));
  }

  lemma {:induction false} SpelledEntry(data: seq<Byte>, start: nat, vs: seq<Isize>, base: Isize)
    requires forall i :: 0 <= i < |vs| ==> base <= vs[i]
    requires start + |EntryBytes(vs, base)| <= |data|
             && data[start..start + |EntryBytes(vs, base)|] == EntryBytes(vs, base)
    ensures Spelled(data, start, base) == Spell(Visible(vs, base))
    decreases |vs|
  {
    hide Read, Minimal, Code, Back, Decimal;
    var all := EntryBytes(vs, base);
    if vs == [] {
      ReadMinimal(data, start, 0);
    } else {
      var first := Minimal(Code(vs[0], base));
      var n := |first|;
      assert all[..n] == first && data[start..start + n] == data[start..start + |all|][..n];
      ReadMinimal(data, start, Code(vs[0], base));
      CodeBack(vs[0], base);
      if Code(vs[0], base) != 0 {
        assert data[start + n..start + |all|] == data[start..start + |all|][n..];
        assert all[n..] == EntryBytes(vs[1..], base);
        SpelledEntry(data, start + n, vs[1..], base);
        assert Visible(vs, base)[1..] == Visible(vs[1..], base);
      }
    }
  }

  lemma {:induction false} VisibleAll(vs: seq<Isize>, base: Isize)
    ensures |Spell(Visible(vs, base))| <= |Spell(vs)|
    ensures Visible(vs, base) == vs <==> forall i :: 0 <= i < |vs| ==> Code(vs[i], base) != 0
    ensures Visible(vs, base) != vs ==> |Spell(Visible(vs, base))| < |Spell(vs)|
    decreases |vs|
  {
    hide Code, Decimal;
    if vs != [] && Code(vs[0], base) != 0 {
      VisibleAll(vs[1..], base);
      var seen := Visible(vs, base);
      assert seen[1..] == Visible(vs[1..], base);
      assert vs == [vs[0]] + vs[1..];
      assert forall i :: 0 <= i < |vs| - 1 ==> vs[1..][i] == vs[i + 1];
    }
  }

  // ----- condensing -----

  /** The place of the first underscore. */
  method FindUnderscore(s: Str) returns (i: nat)
    ensures i <= |s| && (i < |s| ==> s[i] == UNDERSCORE) && UNDERSCORE !in s[..i]
  {
    i := 0;
    while i < |s| && s[i] != UNDERSCORE
      invariant i <= |s| && UNDERSCORE !in s[..i]
    {
      i := i + 1;
    }
  }

  ghost predicate Ascending(locs: seq<(nat, Str)>) {
    forall i, j :: 0 <= i < j < |locs| ==> locs[i].0 < locs[j].0
  }

  /** The numbers of the first `n` locations. */
  ghost predicate AllRead(prefix: Str, locs: seq<(nat, Str)>, numbers: seq<seq<Isize>>) {
    |numbers| <= |locs| && forall i :: 0 <= i < |numbers| ==> ReadLocation(prefix, locs[i].1) == Numbers(numbers[i])
  }

  ghost predicate Least(numbers: seq<seq<Isize>>, base: Isize) {
    && (forall i, j :: 0 <= i < |numbers| && 0 <= j < |numbers[i]| ==> base <= numbers[i][j])
    && (numbers != [] ==> exists i, j :: 0 <= i < |numbers| && 0 <= j < |numbers[i]| && numbers[i][j] == base)
  }

  function Smaller(a: Isize, b: Isize): Isize {
    if a < b then a else b
  }

  /** The least number so far. */
  method LeastOf(numbers: seq<seq<Isize>>) returns (base: Isize)
    requires forall i :: 0 <= i < |numbers| ==> numbers[i] != []
    ensures Least(numbers, base)
  {
    base := if numbers == [] then 0 else numbers[0][0];
    for i := 0 to |numbers|
      invariant forall p, q :: 0 <= p < i && 0 <= q < |numbers[p]| ==> base <= numbers[p][q]
      invariant numbers != [] ==> exists p, q :: 0 <= p < |numbers| && 0 <= q < |numbers[p]| && numbers[p][q] == base
    {
      for j := 0 to |numbers[i]|
        invariant forall p, q :: 0 <= p < i && 0 <= q < |numbers[p]| ==> base <= numbers[p][q]
        invariant forall q :: 0 <= q < j ==> base <= numbers[i][q]
        invariant numbers != [] ==> exists p, q :: 0 <= p < |numbers| && 0 <= q < |numbers[p]| && numbers[p][q] == base
      {
        base := Smaller(numbers[i][j], base);
      }
    }
  }

  /** Entry `i` of a table starts with the numbers `vs`. */
  ghost predicate EntryAt(t: Table, i: nat, vs: seq<Isize>)
    requires i < |t.locs| && ISIZE_MIN <= t.base <= ISIZE_MAX
  {
    var start, bytes := t.locs[i].1, EntryBytes(vs, t.base);
    start + |bytes| <= |t.tokens| && t.tokens[start..start + |bytes|] == bytes
  }

  ghost predicate Stored(t: Table, locs: seq<(nat, Str)>, numbers: seq<seq<Isize>>) {
    && ISIZE_MIN <= t.base <= ISIZE_MAX && |t.locs| == |numbers| <= |locs|
    && forall i :: 0 <= i < |t.locs| ==> t.locs[i].0 == locs[i].0 && EntryAt(t, i, numbers[i])
  }

  lemma {:induction false} EntryBytesAdd(vs: seq<Isize>, base: Isize, k: nat)
    requires k <= |vs|
    ensures EntryBytes(vs, base) == CodesOf(vs[..k], base) + EntryBytes(vs[k..], base)
    decreases k
  {
    hide Minimal, Code;
    if k == 0 {
      assert vs[0..] == vs;
    } else {
      EntryBytesAdd(vs[1..], base, k - 1);
      assert vs[..k][1..] == vs[1..][..k - 1] && vs[1..][k - 1..] == vs[k..];
      assert vs[..k][0] == vs[0];
      var c, d, e := Minimal(Code(vs[0], base)), CodesOf(vs[1..][..k - 1], base), EntryBytes(vs[k..], base);
      assert c + (d + e) == c + d + e;
    }
  }

  function CodesOf(vs: seq<Isize>, base: Isize): seq<Byte>
    decreases |vs|
  {
    if vs == [] then [] else Minimal(Code(vs[0], base)) + CodesOf(vs[1..], base)
  }

  lemma {:induction false} CodesSnoc(vs: seq<Isize>, base: Isize, k: nat)
    requires k < |vs|
    ensures CodesOf(vs[..k + 1], base) == CodesOf(vs[..k], base) + Minimal(Code(vs[k], base))
    decreases k
  {
    hide Minimal, Code;
    if k == 0 {
      assert vs[..1] == [vs[0]] && vs[..1][1..] == [] && vs[..0] == [];
    } else {
      CodesSnoc(vs[1..], base, k - 1);
      assert vs[..k + 1][1..] == vs[1..][..k] && vs[..k][1..] == vs[1..][..k - 1];
      var c, d, e := Minimal(Code(vs[0], base)), CodesOf(vs[1..][..k - 1], base), Minimal(Code(vs[k], base));
      assert vs[1..][k - 1] == vs[k];
      assert c + (d + e) == c + d + e;
    }
  }

  /** Appends the stored form of an entry. */
  method AppendEntry(tokens0: seq<Byte>, vs: seq<Isize>, base: Isize) returns (tokens: seq<Byte>)
    ensures tokens == tokens0 + EntryBytes(vs, base)
  {
    hide Groups, Padded, Code;
    tokens := tokens0;
    for k := 0 to |vs|
      invariant tokens == tokens0 + CodesOf(vs[..k], base)
    {
      CodesSnoc(vs, base, k);
      tokens := EncodeU64(Code(vs[k], base), tokens, None);
    }
    assert vs[..|vs|] == vs && vs[|vs|..] == [];
    EntryBytesAdd(vs, base, |vs|);
    tokens := EncodeU64(0, tokens, None);
  }

  lemma EntryLonger(t: Table, more: seq<Byte>, i: nat, vs: seq<Isize>)
    requires i < |t.locs| && ISIZE_MIN <= t.base <= ISIZE_MAX && EntryAt(t, i, vs)
    ensures EntryAt(t.(tokens := t.tokens + more), i, vs)
  {
    hide EntryBytes;
    var start, n := t.locs[i].1, |EntryBytes(vs, t.base)|;
    assert (t.tokens + more)[start..start + n] == t.tokens[start..start + n];
  }

  lemma EntriesLonger(t: Table, locs: seq<(nat, Str)>, numbers: seq<seq<Isize>>, more: seq<Byte>)
    requires Stored(t, locs, numbers)
    ensures Stored(t.(tokens := t.tokens + more), locs, numbers)
  {
    hide EntryAt;
    forall i | 0 <= i < |t.locs| ensures EntryAt(t.(tokens := t.tokens + more), i, numbers[i]) {
      EntryLonger(t, more, i, numbers[i]);
    }
  }

  lemma EntryAdded(t: Table, locs: seq<(nat, Str)>, numbers: seq<seq<Isize>>, start: nat, vs: seq<Isize>)
    requires Stored(t, locs, numbers) && |numbers| < |locs|
    requires start + |EntryBytes(vs, t.base)| == |t.tokens| && t.tokens[start..] == EntryBytes(vs, t.base)
    ensures Stored(t.(locs := t.locs + [(locs[|numbers|].0, start)]), locs, numbers + [vs])
  {
    hide EntryBytes;
    var t' := t.(locs := t.locs + [(locs[|numbers|].0, start)]);
    forall i | 0 <= i < |t'.locs| ensures t'.locs[i].0 == locs[i].0 && EntryAt(t', i, (numbers + [vs])[i]) {
      if i < |numbers| {
        assert EntryAt(t, i, numbers[i]);
      }
    }
  }

  /** Stores the numbers of all locations. */
  method Store(prefix: Str, base: Isize, locs: seq<(nat, Str)>, numbers: seq<seq<Isize>>) returns (t: Table)
    requires |numbers| == |locs|
    ensures t.prefix == prefix && t.base == base && Stored(t, locs, numbers)
  {
    hide EntryBytes, Stored;
    t := Table(prefix, base, [], []);
    NothingStored(t, locs);
    for i := 0 to |numbers|
      invariant t.prefix == prefix && t.base == base && Stored(t, locs, numbers[..i])
    {
      var start := |t.tokens|;
      var tokens := AppendEntry(t.tokens, numbers[i], base);
      EntriesLonger(t, locs, numbers[..i], EntryBytes(numbers[i], base));
      t := t.(tokens := tokens);
      EntryAdded(t, locs, numbers[..i], start, numbers[i]);
      assert numbers[..i] + [numbers[i]] == numbers[..i + 1];
      t := t.(locs := t.locs + [(locs[i].0, start)]);
    }
    assert numbers[..|numbers|] == numbers;
  }

  lemma NothingStored(t: Table, locs: seq<(nat, Str)>)
    requires t.locs == [] && ISIZE_MIN <= t.base <= ISIZE_MAX
    ensures Stored(t, locs, [])
  {
  }

  /** Reads all locations behind a prefix, up to the first that cannot be read. */
  method ReadAll(prefix: Str, locs: seq<(nat, Str)>) returns (numbers: seq<seq<Isize>>, failed: Option<Reading>)
    ensures AllRead(prefix, locs, numbers) && (failed.None? <==> |numbers| == |locs|)
    ensures failed.Some? ==> !failed.value.Numbers? && |numbers| < |locs|
                             && failed.value == ReadLocation(prefix, locs[|numbers|].1)
  {
    hide ReadLocation;
    numbers := [];
    for i := 0 to |locs|
      invariant |numbers| == i && AllRead(prefix, locs, numbers)
    {
      var reading := ReadLocation(prefix, locs[i].1);
      if !reading.Numbers? {
        return numbers, Some(reading);
      }
      numbers := numbers + [reading.vs];
    }
    failed := None;
  }

  /** Condenses a table of locations in ascending order of position. What is refused or fails is the first location
      that cannot be read behind the prefix of the first. */
  method Condense(locs: seq<(nat, Str)>) returns (r: Outcome, ghost numbers: seq<seq<Isize>>)
    ensures locs == [] ==> r == Condensed(Table([], 0, [], [])) && numbers == []
    ensures r.Condensed? ==> Condenses(r.table, locs, numbers)
    ensures locs != [] && UNDERSCORE !in locs[0].1 ==> r == Invalid(locs[0].1)
    ensures !r.Condensed? && UNDERSCORE in locs[0].1 ==>
              exists prefix, i :: IsPrefix(prefix, locs[0].1) && Fails(prefix, locs, i, r)
  {
    hide ReadLocation, EntryBytes, Stored, Least;
    numbers := [];
    if locs == [] {
      r := Condensed(Table([], 0, [], []));
      NothingStored(r.table, locs);
      NothingLeast(0);
      return;
    }
    var n := FindUnderscore(locs[0].1);
    if n == |locs[0].1| {
      assert locs[0].1[..n] == locs[0].1;
      return Invalid(locs[0].1), [];
    }
    var prefix := locs[0].1[..n];
    var all, failed := ReadAll(prefix, locs);
    if failed.Some? {
      r := if failed.value.Crash? then Panics else Invalid(locs[|all|].1);
      assert Fails(prefix, locs, |all|, r);
      return;
    }
    forall i | 0 <= i < |all| ensures all[i] != [] {
      ReadingSpells(prefix, locs[i].1);
    }
    numbers := all;
    var base := LeastOf(all);
    var t := Store(prefix, base, locs, all);
    r := Condensed(t);
  }

  lemma NothingLeast(base: Isize)
    ensures Least([], base)
  {
  }

  /** A table holds the numbers of all locations, read behind the prefix of the first. */
  ghost predicate Condenses(t: Table, locs: seq<(nat, Str)>, numbers: seq<seq<Isize>>) {
    && Stored(t, locs, numbers) && |numbers| == |locs| && Least(numbers, t.base) && AllRead(t.prefix, locs, numbers)
    && (locs != [] ==> IsPrefix(t.prefix, locs[0].1))
  }

  /** The prefix of a location is what stands before its first underscore. */
  ghost predicate IsPrefix(prefix: Str, loc: Str) {
    prefix <= loc && |prefix| < |loc| && loc[|prefix|] == UNDERSCORE && UNDERSCORE !in prefix
  }

  ghost predicate Fails(prefix: Str, locs: seq<(nat, Str)>, i: nat, r: Outcome) {
    && i < |locs| && (forall j :: 0 <= j < i ==> ReadLocation(prefix, locs[j].1).Numbers?)
    && match ReadLocation(prefix, locs[i].1)
       case Numbers(_) => false
       case Rejected => r == Invalid(locs[i].1)
       case Crash => r == Panics
  }

  // ----- looking up -----

  /** The first location behind a position. */
  function FirstBehind(keys: seq<nat>, pos: nat): (i: nat)
    ensures i <= |keys|
    decreases |keys|
  {
    if keys == [] || keys[0] > pos then 0 else 1 + FirstBehind(keys[1..], pos)
  }

  lemma {:induction false} FirstBehindIs(keys: seq<nat>, pos: nat, i: nat)
    requires i <= |keys| && (forall j :: 0 <= j < i ==> keys[j] <= pos) && (i < |keys| ==> keys[i] > pos)
    ensures FirstBehind(keys, pos) == i
    decreases |keys|
  {
    if i > 0 {
      FirstBehindIs(keys[1..], pos, i - 1);
    }
  }

  function Keys(t: Table): (keys: seq<nat>)
    ensures |keys| == |t.locs|
  {
    seq(|t.locs|, i requires 0 <= i < |t.locs| => t.locs[i].0)
  }

  /** What looking up a position in a table gives. */
  function Found(t: Table, pos: nat): Option<Str>
    requires ISIZE_MIN <= t.base <= ISIZE_MAX && forall i :: 0 <= i < |t.locs| ==> t.locs[i].1 <= |t.tokens|
  {
    var i := FirstBehind(Keys(t), pos);
    if i == |t.locs| then None else Some(t.prefix + Spelled(t.tokens, t.locs[i].1, t.base))
  }

  /** Finds the first entry behind a position by halving, and spells it out. */
  method Lookup(t: Table, pos: nat) returns (r: Option<Str>)
    requires ISIZE_MIN <= t.base <= ISIZE_MAX && forall i :: 0 <= i < |t.locs| ==> t.locs[i].1 <= |t.tokens|
    requires forall i, j :: 0 <= i < j < |t.locs| ==> t.locs[i].0 < t.locs[j].0
    ensures r == Found(t, pos)
  {
    hide Decimal, Back, Read;
    var lo, hi := 0, |t.locs|;
    while lo < hi
      invariant lo <= hi <= |t.locs|
      invariant forall j :: 0 <= j < lo ==> t.locs[j].0 <= pos
      invariant forall j :: hi <= j < |t.locs| ==> t.locs[j].0 > pos
    {
      var mid := (lo + hi) / 2;
      if t.locs[mid].0 < pos + 1 {
        lo := mid + 1;
      } else {
        hi := mid;
      }
    }
    FirstBehindIs(Keys(t), pos, lo);
    if lo == |t.locs| {
      return None;
    }
    var start, text := t.locs[lo].1, t.prefix;
    var v, aft := DecodeU64(t.tokens, start);
    while v != 0 && aft != start
      invariant start <= |t.tokens| && (v, aft) == Read(t.tokens, start)
      invariant text + Spelled(t.tokens, start, t.base) == t.prefix + Spelled(t.tokens, t.locs[lo].1, t.base)
      decreases |t.tokens| - start
    {
      var more := [UNDERSCORE] + Decimal(Back(v, t.base));
      assert text + (more + Spelled(t.tokens, aft, t.base)) == text + more + Spelled(t.tokens, aft, t.base);
      text := text + more;
      start := aft;
      v, aft := DecodeU64(t.tokens, start);
    }
    assert text + [] == text;
    r := Some(text);
  }

  /** The location asked for: that of the first position behind the given one. */
  function Expected(locs: seq<(nat, Str)>, pos: nat): Option<Str> {
    var i := FirstBehind(seq(|locs|, k requires 0 <= k < |locs| => locs[k].0), pos);
    if i == |locs| then None else Some(locs[i].1)
  }

  /** A location comes out of the table as it went in: an underscore follows the prefix, and no number is the largest
      there is while the least of all locations is the smallest there is. */
  predicate Faithful(t: Table, loc: Str, vs: seq<Isize>) {
    && |loc| > |t.prefix| && loc[|t.prefix|] == UNDERSCORE
    && (t.base == ISIZE_MIN ==> ISIZE_MAX !in vs)
  }

  lemma EntryFaithful(t: Table, i: nat, loc: Str, vs: seq<Isize>)
    requires i < |t.locs| && ISIZE_MIN <= t.base <= ISIZE_MAX && EntryAt(t, i, vs)
    requires ReadLocation(t.prefix, loc) == Numbers(vs) && forall j :: 0 <= j < |vs| ==> t.base <= vs[j]
    ensures t.prefix + Spelled(t.tokens, t.locs[i].1, t.base) == loc <==> Faithful(t, loc, vs)
  {
    hide ReadLocation, EntryBytes, Decimal, Code;
    var n, seen := |t.prefix|, Visible(vs, t.base);
    ReadingSpells(t.prefix, loc);
    SpelledEntry(t.tokens, t.locs[i].1, vs, t.base);
    VisibleAll(vs, t.base);
    forall j | 0 <= j < |vs| ensures Code(vs[j], t.base) == 0 <==> t.base == ISIZE_MIN && vs[j] == ISIZE_MAX {
      CodeBack(vs[j], t.base);
    }
    var text := t.prefix + Spell(seen);
    if loc[n] != UNDERSCORE && seen != [] {
      assert text[n] == UNDERSCORE;
    }
    if seen != vs {
      assert |text| < n + |Spell(vs)| == |loc|;
    }
  }

  /** The table answers every question as the locations it was made from do, except exactly those whose answer is a
      location that is not faithful. */
  lemma LookupIsExpected(t: Table, locs: seq<(nat, Str)>, numbers: seq<seq<Isize>>, pos: nat)
    requires Condenses(t, locs, numbers)
    ensures forall i :: 0 <= i < |t.locs| ==> t.locs[i].1 <= |t.tokens|
    ensures Ascending(locs) ==> forall i, j :: 0 <= i < j < |t.locs| ==> t.locs[i].0 < t.locs[j].0
    ensures var i := FirstBehind(Keys(t), pos);
            && i <= |locs| == |numbers|
            && (Found(t, pos) == Expected(locs, pos) <==> i == |locs| || Faithful(t, locs[i].1, numbers[i]))
  {
    hide ReadLocation, EntryBytes, Spelled, Faithful, FirstBehind;
    forall i | 0 <= i < |t.locs| ensures t.locs[i].1 <= |t.tokens| {
      assert EntryAt(t, i, numbers[i]);
    }
    assert Keys(t) == seq(|locs|, k requires 0 <= k < |locs| => locs[k].0);
    var i := FirstBehind(Keys(t), pos);
    if i < |locs| {
      assert EntryAt(t, i, numbers[i]);
      EntryFaithful(t, i, locs[i].1, numbers[i]);
    }
  }

  /** "0", "-12" are accepted, "+5", "-0" and "07" are not. */
  lemma SampleTokens()
    ensures ReadToken([48]) == Some(0) && ReadToken([45, 49, 50]) == Some(-12)
    ensures ReadToken([43, 53]) == ReadToken([45, 48]) == ReadToken([48, 55]) == None
  {
    TokenIs([48], 0);
    TokenIs([45, 49, 50], -12);
    assert Numeral(12) == Numeral(1) + [50];
    var plus: Str := [43, 53];
    var minus: Str := [45, 48];
    var seven: Str := [48, 55];
    assert plus[1..] == [53] && minus[1..] == [48] && seven[..1] == [48];
    assert ReadNumeral([53]) == Some(5) && ReadNumeral([48]) == Some(0) && ReadNumeral(seven) == Some(7);
  }

  lemma DigitReads(d: nat)
    requires d < 10
    ensures ReadTokens(Split([48 + d])) == Some([d])
  {
    var s: Str := [48 + d];
    SplitParts(s);
    SplitParts([]);
    assert s[1..] == [];
    var one: seq<Str> := [s];
    var none: seq<Str> := [[]];
    assert none[1..] == [] && s + none[0] == s;
    assert Split(s) == one;
    TokenIs(s, d);
    assert one[1..] == [] && ReadTokens(one[1..]) == Some([]);
    var v: seq<Isize> := [d];
    assert v + [] == v;
  }

  /** Both ways in which a location can come out wrong do happen: "a15" behind the prefix "a" comes out as "a_5", and
      the largest number over the smallest base is stored as the number that ends an entry. */
  lemma Unfaithful()
    ensures var a, a15 := [97], [97, 49, 53];
            ReadLocation(a, a15) == Numbers([5]) && a + Spell([5]) == [97, 95, 53]
    ensures Code(ISIZE_MAX, ISIZE_MIN) == 0
  {
    hide Split, ReadTokens;
    var a15: Str := [97, 49, 53];
    assert a15[2..] == [53] && a15[..1] == [97];
    DigitReads(5);
    assert Spell([5]) == [95] + [53] + Spell([]) by {
      assert [5][1..] == [];
    }
  }

  /** Two locations behind the same prefix, the second without an underscore behind it: "a_1" and "a15". */
  const MISLED: seq<(nat, Str)> := [(1, [97, 95, 49]), (2, [97, 49, 53])]

  lemma MisledReads()
    ensures ReadLocation([97], MISLED[0].1) == Numbers([1]) && ReadLocation([97], MISLED[1].1) == Numbers([5])
  {
    hide Split, ReadTokens;
    assert MISLED[0].1[2..] == [49] && MISLED[1].1[2..] == [53];
    assert MISLED[0].1[..1] == [97] && MISLED[1].1[..1] == [97];
    DigitReads(1);
    DigitReads(5);
  }

  lemma MisledPrefix(prefix: Str)
    requires IsPrefix(prefix, MISLED[0].1)
    ensures prefix == [97]
  {
    assert MISLED[0].1[1] == 95;
  }

  /** What comes out of a table: the prefix, and the numbers that were read up to one that is stored as zero. */
  lemma FoundReads(t: Table, locs: seq<(nat, Str)>, numbers: seq<seq<Isize>>, pos: nat)
    requires Condenses(t, locs, numbers)
    ensures forall i :: 0 <= i < |t.locs| ==> t.locs[i].1 <= |t.tokens|
    ensures var i := FirstBehind(seq(|locs|, k requires 0 <= k < |locs| => locs[k].0), pos);
            i < |locs| == |numbers| ==> Found(t, pos) == Some(t.prefix + Spell(Visible(numbers[i], t.base)))
  {
    hide ReadLocation, EntryBytes, Spelled, FirstBehind, Visible;
    LookupIsExpected(t, locs, numbers, pos);
    assert Keys(t) == seq(|locs|, k requires 0 <= k < |locs| => locs[k].0);
    var i := FirstBehind(Keys(t), pos);
    if i < |locs| {
      assert EntryAt(t, i, numbers[i]);
      SpelledEntry(t.tokens, t.locs[i].1, numbers[i], t.base);
    }
  }

  lemma MisledNumbers(t: Table, numbers: seq<seq<Isize>>)
    requires Condenses(t, MISLED, numbers)
    ensures t.prefix == [97] && numbers == [[1], [5]] && t.base == 1
  {
    hide ReadLocation, EntryBytes, Stored;
    MisledPrefix(t.prefix);
    MisledReads();
    assert numbers[0] == [1] && numbers[1] == [5];
    assert t.base <= numbers[0][0];
  }

  /** A table does give a wrong location: whatever condensing "a_1" and "a15" gives, which is a table, the second
      comes out of it as "a_5". */
  lemma WrongLocation(t: Table, numbers: seq<seq<Isize>>)
    requires Condenses(t, MISLED, numbers)
    ensures forall prefix, i, r :: IsPrefix(prefix, MISLED[0].1) ==> !Fails(prefix, MISLED, i, r)
    ensures forall i :: 0 <= i < |t.locs| ==> t.locs[i].1 <= |t.tokens|
    ensures Expected(MISLED, 1) == Some(MISLED[1].1) && Found(t, 1) == Some([97, 95, 53]) != Expected(MISLED, 1)
  {
    hide ReadLocation, EntryBytes, Spelled, Decimal, Condenses, IsPrefix;
    MisledReads();
    forall prefix | IsPrefix(prefix, MISLED[0].1) ensures prefix == [97] {
      MisledPrefix(prefix);
    }
    FoundReads(t, MISLED, numbers, 1);
    MisledNumbers(t, numbers);
    Unfaithful();
    assert seq(2, k requires 0 <= k < 2 => MISLED[k].0) == [1, 2];
    assert [1, 2][1..] == [2];
    assert [5][1..] == [] && Visible([], 1) == [] && Code(5, 1) == 5;
  }
}
