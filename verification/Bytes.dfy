/** Bytes, machine-integer bounds and the small sequence facts every other module uses. */
module Bytes {

  type byte = b: int | 0 <= b < 256

  const U64_MAX: nat := 0xFFFF_FFFF_FFFF_FFFF

  const HTAB: byte := 9
  const LF: byte := 10
  const CR: byte := 13
  const SP: byte := 32

  const CRLF: seq<byte> := [CR, LF]

  datatype Option<+T> = None | Some(value: T)

  function Min(a: nat, b: nat): nat {
    if a <= b then a else b
  }

  /** Concatenation of a list of byte strings. */
  function Flatten(parts: seq<seq<byte>>): seq<byte> {
    if parts == [] then [] else parts[0] + Flatten(parts[1..])
  }

  lemma {:induction false} FlattenAppend(a: seq<seq<byte>>, b: seq<seq<byte>>)
    ensures Flatten(a + b) == Flatten(a) + Flatten(b)
  {
    if a == [] {
      assert a + b == b;
    } else {
      assert (a + b)[1..] == a[1..] + b;
      FlattenAppend(a[1..], b);
    }
  }

  lemma FlattenPush(parts: seq<seq<byte>>, last: seq<byte>)
    ensures Flatten(parts + [last]) == Flatten(parts) + last
  {
    FlattenAppend(parts, [last]);
    assert Flatten([last]) == last + Flatten([last][1..]) == last;
  }

  /** `later` is what is left of the script `turns`. */
  ghost predicate Left<T>(turns: seq<T>, later: seq<T>) {
    |later| <= |turns| && later == turns[|turns| - |later|..]
  }

  /** The last turn used between the two. */
  function LastUsed<T>(turns: seq<T>, later: seq<T>): T
    requires |later| < |turns|
  {
    turns[|turns| - |later| - 1]
  }

  ghost predicate LastWas<T>(turns: seq<T>, later: seq<T>, t: T) {
    |later| < |turns| && LastUsed(turns, later) == t
  }

  lemma LeftAll<T>(turns: seq<T>)
    ensures Left(turns, turns)
  {
    assert turns[0..] == turns;
  }

  lemma LeftNext<T>(turns: seq<T>, was: seq<T>)
    requires Left(turns, was) && was != []
    ensures Left(turns, was[1..]) && LastUsed(turns, was[1..]) == was[0]
  {
    assert turns[|turns| - |was|..][1..] == turns[|turns| - |was| + 1..];
  }

  lemma LeftThen<T>(turns: seq<T>, was: seq<T>, now: seq<T>)
    requires Left(turns, was) && Left(was, now)
    ensures Left(turns, now)
    ensures |now| < |was| ==> LastUsed(turns, now) == LastUsed(was, now)
  {
    var d := |turns| - |was|;
    assert now == turns[d..][|was| - |now|..] == turns[d + |was| - |now|..];
  }

  /** How many elements of `s` satisfy `p`. */
  ghost function Count<T>(s: seq<T>, p: T -> bool): nat {
    if s == [] then 0 else (if p(s[0]) then 1 else 0) + Count(s[1..], p)
  }

  lemma {:induction false} CountUpdate<T>(s: seq<T>, i: nat, x: T, p: T -> bool)
    requires i < |s|
    ensures Count(s[i := x], p) + (if p(s[i]) then 1 else 0) == Count(s, p) + (if p(x) then 1 else 0)
  {
    if i == 0 {
      assert s[i := x][1..] == s[1..];
    } else {
      assert s[i := x][1..] == s[1..][i - 1 := x];
      CountUpdate(s[1..], i - 1, x, p);
    }
  }

  lemma {:induction false} CountAppend<T>(s: seq<T>, x: T, p: T -> bool)
    ensures Count(s + [x], p) == Count(s, p) + (if p(x) then 1 else 0)
  {
    if s != [] {
      assert (s + [x])[1..] == s[1..] + [x];
      CountAppend(s[1..], x, p);
    } else {
      assert s + [x] == [x];
    }
  }

  lemma {:induction false} CountZero<T>(s: seq<T>, p: T -> bool)
    ensures Count(s, p) == 0 <==> forall i | 0 <= i < |s| :: !p(s[i])
  {
    if s != [] {
      CountZero(s[1..], p);
      assert forall i | 0 < i < |s| :: s[i] == s[1..][i - 1];
    }
  }
}
