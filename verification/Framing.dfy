/**
 The headers that frame an HTTP/1 request, and the Content-Length parsers of HTTP/1 and
 HTTP/3 against one reading of the field.
 */
module Framing {
  import opened Bytes

  const COMMA: byte := 44
  const CHUNKED: seq<byte> := [99, 104, 117, 110, 107, 101, 100]

  // ----- field values -----

  predicate VisibleByte(b: byte) { 32 <= b < 127 || b == HTAB }

  /** A value that reads as text: visible ASCII, spaces and tabs. */
  predicate Visible(s: seq<byte>) {
    forall i | 0 <= i < |s| :: VisibleByte(s[i])
  }

  function Split(s: seq<byte>): (items: seq<seq<byte>>)
    ensures items != []
  {
    if s == [] then [[]]
    else
      var rest := Split(s[1..]);
      if s[0] == COMMA then [[]] + rest else [[s[0]] + rest[0]] + rest[1..]
  }

  function TrimStart(s: seq<byte>, blank: set<byte>): seq<byte> {
    if s != [] && s[0] in blank then TrimStart(s[1..], blank) else s
  }

  function TrimEnd(s: seq<byte>, blank: set<byte>): seq<byte> {
    if s != [] && s[|s| - 1] in blank then TrimEnd(s[..|s| - 1], blank) else s
  }

  function Trim(s: seq<byte>, blank: set<byte>): seq<byte> {
    TrimEnd(TrimStart(s, blank), blank)
  }

  /** Optional whitespace of a field value. */
  const OWS: set<byte> := {SP, HTAB}
  /** The ASCII whitespace that trimming a string removes. */
  const WHITESPACE: set<byte> := {SP, HTAB, LF, 11, 12, CR}

  lemma {:induction false} SameStart(s: seq<byte>)
    requires Visible(s)
    ensures TrimStart(s, WHITESPACE) == TrimStart(s, OWS) && Visible(TrimStart(s, OWS))
  {
    if s != [] {
      assert VisibleByte(s[0]);
      assert Visible(s[1..]);
      SameStart(s[1..]);
    }
  }

  lemma {:induction false} SameEnd(s: seq<byte>)
    requires Visible(s)
    ensures TrimEnd(s, WHITESPACE) == TrimEnd(s, OWS)
  {
    if s != [] {
      assert VisibleByte(s[|s| - 1]);
      SameEnd(s[..|s| - 1]);
    }
  }

  /** In a readable value, the two ways to trim agree. */
  lemma SameTrim(s: seq<byte>)
    requires Visible(s)
    ensures Trim(s, WHITESPACE) == Trim(s, OWS)
  {
    SameStart(s);
    SameEnd(TrimStart(s, OWS));
  }

  lemma {:induction false} SplitVisible(s: seq<byte>)
    requires Visible(s)
    ensures forall i | 0 <= i < |Split(s)| :: Visible(Split(s)[i])
  {
    if s != [] {
      assert VisibleByte(s[0]);
      SplitVisible(s[1..]);
      var rest := Split(s[1..]);
      assert Visible(rest[0]);
      assert Visible([s[0]] + rest[0]);
      assert Visible([]);
    }
  }

  // ----- numbers -----

  predicate IsDigit(b: byte) { 48 <= b <= 57 }

  predicate Digits(s: seq<byte>) {
    forall i | 0 <= i < |s| :: IsDigit(s[i])
  }

  function Value(s: seq<byte>): nat
    requires Digits(s)
  {
    if s == [] then 0 else 10 * Value(s[..|s| - 1]) + (s[|s| - 1] - 48)
  }

  /** The number a string of digits stands for, if it fits 64 bits. */
  function Number(s: seq<byte>): Option<nat> {
    if s != [] && Digits(s) && Value(s) <= U64_MAX then Some(Value(s)) else None
  }

  lemma {:induction false} PrefixValue(s: seq<byte>, k: nat)
    requires Digits(s) && k <= |s|
    ensures Value(s[..k]) <= Value(s)
    decreases |s|
  {
    if k < |s| {
      var p := s[..|s| - 1];
      assert p[..k] == s[..k];
      PrefixValue(p, k);
    } else {
      assert s[..k] == s;
    }
  }

  /** Reads digits one by one with checked arithmetic; exact, and refused iff over 64 bits. */
  method FromDigits(bytes: seq<byte>) returns (r: Option<nat>)
    ensures r == Number(bytes)
  {
    var result: nat := 0;
    if bytes == [] {
      return None;
    }
    var i := 0;
    while i < |bytes|
      invariant i <= |bytes| && Digits(bytes[..i]) && result == Value(bytes[..i]) <= U64_MAX
    {
      var b := bytes[i];
      if !IsDigit(b) {
        return None;
      }
      var next := bytes[..i + 1];
      assert next[..i] == bytes[..i];
      if Digits(bytes) {
        PrefixValue(bytes, i + 1);
      }
      if result * 10 > U64_MAX {
        return None;
      }
      result := result * 10;
      if result + (b - 48) > U64_MAX {
        return None;
      }
      result := result + (b - 48);
      i := i + 1;
    }
    assert bytes[..i] == bytes;
    r := Some(result);
  }

  // ----- Content-Length -----

  /** Every listed item of a field line is the number `n`. */
  predicate ItemsSay(items: seq<seq<byte>>, n: nat) {
    forall i | 0 <= i < |items| :: Number(Trim(items[i], OWS)) == Some(n)
  }

  predicate LineSays(line: seq<byte>, n: nat) {
    Visible(line) && ItemsSay(Split(line), n)
  }

  /** Every field line says `n` and nothing else. */
  predicate AllSay(lines: seq<seq<byte>>, n: nat) {
    forall i | 0 <= i < |lines| :: LineSays(lines[i], n)
  }

  /** The number a field line says, if it says one. */
  function LineValue(line: seq<byte>): Option<nat> {
    var first := Number(Trim(Split(line)[0], OWS));
    if Visible(line) && first.Some? && ItemsSay(Split(line), first.value) then first else None
  }

  lemma LineSaysItsValue(line: seq<byte>, n: nat)
    ensures LineSays(line, n) <==> LineValue(line) == Some(n)
  {
    hide Number, Trim;
    var items := Split(line);
    assert ItemsSay(items, n) ==> Number(Trim(items[0], OWS)) == Some(n);
  }

  /** One field line: its items must be numbers and agree with each other and with `seen`. */
  method ParseLine(line: seq<byte>, seen: Option<nat>) returns (r: Option<nat>)
    requires Visible(line)
    ensures r == if seen.None? || LineValue(line) == seen then LineValue(line) else None
  {
    hide Trim, Number;
    r := seen;
    var items := Split(line);
    SplitVisible(line);
    var i := 0;
    while i < |items|
      invariant i <= |items| && (if i > 0 then r.Some? else r == seen)
      invariant r.Some? ==> ItemsSay(items[..i], r.value)
      invariant seen.Some? ==> r == seen
      invariant seen.None? && i > 0 ==> r == Number(Trim(items[0], OWS))
    {
      SameTrim(items[i]);
      var n := FromDigits(Trim(items[i], WHITESPACE));
      if n.None? {
        return None;
      }
      if r.None? {
        r := n;
      } else if r != n {
        assert !ItemsSay(items, r.value) by { assert Number(Trim(items[i], OWS)) != r; }
        return None;
      }
      i := i + 1;
    }
    assert items[..i] == items;
  }

  lemma AllSayOne(lines: seq<seq<byte>>, i: nat, n: nat)
    requires i < |lines| && AllSay(lines, n)
    ensures LineValue(lines[i]) == Some(n)
  {
    LineSaysItsValue(lines[i], n);
  }

  lemma AllSayPush(lines: seq<seq<byte>>, i: nat, n: nat)
    requires i < |lines| && AllSay(lines[..i], n) && LineValue(lines[i]) == Some(n)
    ensures AllSay(lines[..i + 1], n)
  {
    LineSaysItsValue(lines[i], n);
    hide LineSays;
    assert lines[..i + 1] == lines[..i] + [lines[i]];
  }

  /** Lines that disagree, or one that says nothing, leave no number. */
  lemma NoneSay(lines: seq<seq<byte>>, i: nat)
    requires i < |lines|
    requires LineValue(lines[i]).None? || LineValue(lines[i]) != LineValue(lines[0])
    ensures forall n: nat :: !AllSay(lines, n)
  {
    hide LineValue, AllSay;
    forall n: nat
      ensures !AllSay(lines, n)
    {
      if AllSay(lines, n) {
        AllSayOne(lines, i, n);
        AllSayOne(lines, 0, n);
      }
    }
  }

  /** The HTTP/1 parser: a number exactly when there is a line and all lines say it. */
  method ParseAll(lines: seq<seq<byte>>) returns (r: Option<nat>)
    ensures forall n: nat :: r == Some(n) <==> lines != [] && AllSay(lines, n)
  {
    hide AllSay, Number, Trim, ItemsSay;
    r := None;
    var i := 0;
    NothingSaid();
    while i < |lines|
      invariant i <= |lines| && (i > 0 <==> r.Some?)
      invariant r.Some? ==> AllSay(lines[..i], r.value) && LineValue(lines[0]) == r
    {
      var n := None;
      if Visible(lines[i]) {
        n := ParseLine(lines[i], r);
      }
      if n.None? {
        NoneSay(lines, i);
        return None;
      }
      assert i == 0 ==> lines[..i] == [];
      AllSayPush(lines, i, n.value);
      r := n;
      i := i + 1;
    }
    assert lines[..i] == lines;
    Unanimous(lines);
  }

  lemma NothingSaid()
    ensures forall n: nat :: AllSay([], n)
  {
  }

  lemma Unanimous(lines: seq<seq<byte>>)
    ensures forall n: nat :: lines != [] && AllSay(lines, n) ==> LineValue(lines[0]) == Some(n)
  {
    hide LineValue, AllSay;
    forall n: nat | lines != [] && AllSay(lines, n)
      ensures LineValue(lines[0]) == Some(n)
    {
      AllSayOne(lines, 0, n);
    }
  }

  /** What the HTTP/3 parser returns: no field, a length, or an error. */
  datatype Declared = Absent | Length(n: nat) | Illegal

  /** One item of a line; the standard parser reads any digits that fit 64 bits. */
  method ParseItem(item: seq<byte>) returns (r: Option<nat>)
    ensures r == Number(Trim(item, OWS))
  {
    var digits := Trim(item, OWS);
    if digits == [] || !Digits(digits) {
      return None;
    }
    r := if Value(digits) <= U64_MAX then Some(Value(digits)) else None;
  }

  /** The HTTP/3 parser: the same length, telling a missing field from an illegal one. */
  method ContentLength(lines: seq<seq<byte>>) returns (r: Declared)
    ensures r.Absent? <==> lines == []
    ensures forall n: nat :: r == Length(n) <==> lines != [] && AllSay(lines, n)
  {
    hide AllSay, Number, Trim, ItemsSay;
    var length: Option<nat> := None;
    var i := 0;
    NothingSaid();
    while i < |lines|
      invariant i <= |lines| && (i > 0 <==> length.Some?)
      invariant length.Some? ==> AllSay(lines[..i], length.value) && LineValue(lines[0]) == length
    {
      if !Visible(lines[i]) {
        NoneSay(lines, i);
        return Illegal;
      }
      var n := LengthLine(lines[i], length);
      if n.None? {
        NoneSay(lines, i);
        return Illegal;
      }
      assert i == 0 ==> lines[..i] == [];
      AllSayPush(lines, i, n.value);
      length := n;
      i := i + 1;
    }
    assert lines[..i] == lines;
    Unanimous(lines);
    r := if length.Some? then Length(length.value) else Absent;
  }

  method LengthLine(line: seq<byte>, seen: Option<nat>) returns (r: Option<nat>)
    requires Visible(line)
    ensures r == if seen.None? || LineValue(line) == seen then LineValue(line) else None
  {
    hide Trim, Number;
    r := seen;
    var items := Split(line);
    var i := 0;
    while i < |items|
      invariant i <= |items| && (if i > 0 then r.Some? else r == seen)
      invariant r.Some? ==> ItemsSay(items[..i], r.value)
      invariant seen.Some? ==> r == seen
      invariant seen.None? && i > 0 ==> r == Number(Trim(items[0], OWS))
    {
      var n := ParseItem(items[i]);
      if n.None? {
        return None;
      }
      if r.Some? && r != n {
        assert !ItemsSay(items, r.value) by { assert Number(Trim(items[i], OWS)) != r; }
        return None;
      }
      r := n;
      i := i + 1;
    }
    assert items[..i] == items;
  }

  /** On every list of field lines, the two parsers find the same length. */
  method ParsersAgree(lines: seq<seq<byte>>) returns (h1: Option<nat>, h3: Declared)
    ensures forall n: nat :: h1 == Some(n) <==> h3 == Length(n)
    ensures h1.None? <==> h3.Absent? || h3.Illegal?
    ensures h3.Absent? <==> lines == []
  {
    h1 := ParseAll(lines);
    h3 := ContentLength(lines);
    hide AllSay;
    if h1.Some? {
      assert h3 == Length(h1.value);
    }
  }
}
