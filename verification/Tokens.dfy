/** Lists of names packed into one text, each name preceded by a null byte. */
module Tokens {
  import opened Common

  /** Names must not contain the separator. */
  predicate NulFree(names: seq<Str>) {
    forall i :: 0 <= i < |names| ==> 0 !in names[i]
  }

  function LosslessJoin(names: seq<Str>): Str {
    if names == [] then [] else [0] + names[0] + LosslessJoin(names[1..])
  }

  /** The pieces between null bytes; there is always at least one. */
  function SplitNul(src: Str): (r: seq<Str>)
    ensures |r| >= 1
  {
    if src == [] then [[]]
    else if src[0] == 0 then [[]] + SplitNul(src[1..])
    else
      var rest := SplitNul(src[1..]);
      [[src[0]] + rest[0]] + rest[1..]
  }

  /** Drops what comes before the first null byte. */
  function LosslessSplit(src: Str): seq<Str> {
    SplitNul(src)[1..]
  }

  lemma {:induction false} SplitName(name: Str, tail: Str)
    requires 0 !in name
    requires tail == [] || tail[0] == 0
    ensures SplitNul(name + tail) == [name] + (if tail == [] then [] else SplitNul(tail[1..]))
  {
    if name == [] {
      assert name + tail == tail;
    } else {
      assert (name + tail)[1..] == name[1..] + tail;
      SplitName(name[1..], tail);
      assert [name[0]] + name[1..] == name;
    }
  }

  lemma {:induction false} SplitJoined(names: seq<Str>)
    requires NulFree(names)
    ensures names != [] ==> SplitNul(LosslessJoin(names)[1..]) == names
  {
    if names != [] {
      var tail := LosslessJoin(names[1..]);
      SplitJoined(names[1..]);
      assert LosslessJoin(names)[1..] == names[0] + tail;
      SplitName(names[0], tail);
      assert [names[0]] + names[1..] == names;
    }
  }

  /** The names come back exactly, empty names and the empty list included. */
  lemma JoinRoundTrip(names: seq<Str>)
    requires NulFree(names)
    ensures LosslessSplit(LosslessJoin(names)) == names
  {
    SplitJoined(names);
    if names != [] {
      assert LosslessJoin(names)[0] == 0;
    }
  }
}
