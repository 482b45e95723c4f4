/** How a request head is framed for its body: Content-Length, chunked, or no body at all. */
module RequestFraming {
  import opened Bytes
  import opened Framing
  import E = ChunkedEncode

  datatype BodyLength = Known(n: nat) | Unknown

  // ----- decimal numbers -----

  function Decimal(n: nat): (s: seq<byte>)
    ensures s != [] && Digits(s) && Value(s) == n
  {
    if n < 10 then
      assert [48 + n][..0] == [];
      [48 + n]
    else
      var s := Decimal(n / 10) + [48 + n % 10];
      assert s[..|s| - 1] == Decimal(n / 10);
      s
  }

  lemma {:induction false} SplitWhole(s: seq<byte>)
    requires COMMA !in s
    ensures Split(s) == [s]
  {
    if s != [] {
      SplitWhole(s[1..]);
      assert s == [s[0]] + s[1..];
    }
  }

  /** The decimal form of a length is a field value that says exactly that length. */
  lemma DecimalSays(n: nat)
    requires n <= U64_MAX
    ensures AllSay([Decimal(n)], n)
  {
    var s := Decimal(n);
    assert IsDigit(s[0]) && IsDigit(s[|s| - 1]);
    SplitWhole(s);
    assert Trim(s, OWS) == s;
    assert Visible(s);
    assert LineSays(s, n);
  }

  // ----- Transfer-Encoding -----

  function Lower(s: seq<byte>): seq<byte> {
    seq(|s|, i requires 0 <= i < |s| => if 65 <= s[i] <= 90 then s[i] + 32 else s[i])
  }

  /** Chunked is the last encoding of the last line, and that line is readable. */
  predicate IsChunked(lines: seq<seq<byte>>) {
    lines != [] &&
    var line := lines[|lines| - 1];
    var items := Split(line);
    Visible(line) && Lower(Trim(items[|items| - 1], WHITESPACE)) == CHUNKED
  }

  function AddChunked(lines: seq<seq<byte>>): seq<seq<byte>>
    requires lines != []
  {
    lines[|lines| - 1 := lines[|lines| - 1] + [COMMA, SP] + CHUNKED]
  }

  lemma {:induction false} SplitLast(a: seq<byte>, b: seq<byte>)
    requires COMMA !in b
    ensures var items := Split(a + [COMMA] + b);
            |items| >= 2 && items[|items| - 1] == b
  {
    var s := a + [COMMA] + b;
    if a == [] {
      assert s[1..] == b;
      SplitWhole(b);
    } else {
      assert s[1..] == a[1..] + [COMMA] + b;
      SplitLast(a[1..], b);
    }
  }

  lemma TrimmedChunked()
    ensures Trim([SP] + CHUNKED, WHITESPACE) == CHUNKED && Trim(CHUNKED, WHITESPACE) == CHUNKED
    ensures Lower(CHUNKED) == CHUNKED
  {
    assert ([SP] + CHUNKED)[1..] == CHUNKED;
    assert TrimStart(CHUNKED, WHITESPACE) == CHUNKED;
    assert TrimEnd(CHUNKED, WHITESPACE) == CHUNKED;
  }

  lemma VisibleJoin(a: seq<byte>, b: seq<byte>)
    ensures Visible(a + b) <==> Visible(a) && Visible(b)
  {
    assert forall i | 0 <= i < |a| :: (a + b)[i] == a[i];
    assert forall i | 0 <= i < |b| :: (a + b)[|a| + i] == b[i];
  }

  /** After the repair the lines end in chunked exactly when the last one is readable. */
  lemma AddedChunked(lines: seq<seq<byte>>)
    requires lines != []
    ensures IsChunked(AddChunked(lines)) <==> Visible(lines[|lines| - 1])
    ensures Visible(AddChunked(lines)[|lines| - 1]) <==> Visible(lines[|lines| - 1])
  {
    var before := lines[|lines| - 1];
    var tail := [SP] + CHUNKED;
    var line := before + [COMMA, SP] + CHUNKED;
    assert line == before + [COMMA] + tail && line == before + ([COMMA] + tail);
    assert Visible([COMMA] + tail);
    TrimmedChunked();
    hide Split, Trim, Lower, Visible;
    VisibleJoin(before, [COMMA] + tail);
    SplitLast(before, tail);
  }

  lemma InsertedChunked()
    ensures IsChunked([CHUNKED])
  {
    assert Visible(CHUNKED);
    TrimmedChunked();
    hide Split, Trim, Lower, Visible;
    SplitWhole(CHUNKED);
  }

  // ----- trailer names -----

  predicate TokenByte(b: byte) {
    || 48 <= b <= 57 || 65 <= b <= 90 || 97 <= b <= 122
    || b in {33, 35, 36, 37, 38, 39, 42, 43, 45, 46, 94, 95, 96, 124, 126}
  }

  predicate Token(s: seq<byte>) {
    s != [] && forall i | 0 <= i < |s| :: TokenByte(s[i])
  }

  function Names(items: seq<seq<byte>>): seq<seq<byte>> {
    if items == [] then []
    else
      var name := Trim(items[0], WHITESPACE);
      (if Token(name) then [Lower(name)] else []) + Names(items[1..])
  }

  /** The field names the Trailer lines declare. */
  function TrailerNames(lines: seq<seq<byte>>): seq<seq<byte>> {
    if lines == [] then []
    else (if Visible(lines[0]) then Names(Split(lines[0])) else []) + TrailerNames(lines[1..])
  }

  // ----- the request head -----

  ghost predicate Says(lines: seq<seq<byte>>, n: nat) {
    lines != [] && AllSay(lines, n)
  }

  ghost predicate Silent(lines: seq<seq<byte>>) {
    forall n: nat :: !Says(lines, n)
  }

  class RequestHead {
    const http11: bool
    /** GET, HEAD or CONNECT. */
    const bodyless: bool
    var transferEncoding: seq<seq<byte>>
    var contentLength: seq<seq<byte>>
    var trailer: seq<seq<byte>>

    constructor (http11: bool, bodyless: bool, te: seq<seq<byte>>, cl: seq<seq<byte>>, trailer: seq<seq<byte>>)
      ensures this.http11 == http11 && this.bodyless == bodyless
      ensures transferEncoding == te && contentLength == cl && this.trailer == trailer
    {
      this.http11, this.bodyless := http11, bodyless;
      transferEncoding, contentLength, this.trailer := te, cl, trailer;
    }

    method SetContentLength(n: nat) returns (encoder: E.Kind)
      requires n <= U64_MAX
      modifies this
      ensures encoder == E.Length(n) && Says(contentLength, n)
      ensures transferEncoding == old(transferEncoding) && trailer == old(trailer)
    {
      DecimalSays(n);
      contentLength := [Decimal(n)];
      encoder := E.Length(n);
    }

    method Chunked() returns (encoder: E.Kind)
      modifies this
      ensures contentLength == [] && transferEncoding == old(transferEncoding) && trailer == old(trailer)
      ensures encoder == E.Chunked(if TrailerNames(trailer) == [] then None else Some(TrailerNames(trailer)))
    {
      var names := TrailerNames(trailer);
      encoder := E.Chunked(if names == [] then None else Some(names));
      contentLength := [];
    }

    /**
     Frames the request. Transfer-Encoding stays exactly with a chunked body and then without
     Content-Length; a body of known length leaves a Content-Length that says it.
     */
    method SetLength(body: Option<BodyLength>) returns (encoder: E.Kind)
      requires body.Some? && body.value.Known? ==> body.value.n <= U64_MAX
      modifies this
      ensures encoder.Chunked? <==> transferEncoding != []
      ensures encoder.Chunked? ==> contentLength == []
      ensures encoder.Chunked? ==>
                (IsChunked(transferEncoding) <==> Visible(transferEncoding[|transferEncoding| - 1]))
      ensures encoder.Length? && encoder.remaining > 0 ==> Says(contentLength, encoder.remaining)
      // Which framing is chosen.
      ensures body.None? ==> encoder == E.Length(0) && contentLength == old(contentLength)
      ensures body.Some? && http11 && old(transferEncoding) != [] ==> encoder.Chunked?
      ensures body.Some? && (!http11 || old(transferEncoding) == []) ==>
                && (forall n: nat | Says(old(contentLength), n) ::
                      encoder == E.Length(n) && contentLength == old(contentLength))
                && (Silent(old(contentLength)) && body.value.Known? ==>
                      encoder == E.Length(body.value.n) && Says(contentLength, body.value.n))
                && (Silent(old(contentLength)) && body.value.Unknown? ==>
                      if http11 && !bodyless then transferEncoding == [CHUNKED] else encoder == E.Length(0))
      ensures trailer == old(trailer)
      ensures encoder.Chunked? ==>
                encoder.allowed == if TrailerNames(trailer) == [] then None else Some(TrailerNames(trailer))
    {
      hide IsChunked, AllSay, TrailerNames, Visible;
      if body.None? {
        transferEncoding := [];
        return E.Length(0);
      }
      var existing := ParseAll(contentLength);
      if !http11 {
        transferEncoding := [];
        if existing.Some? {
          encoder := E.Length(existing.value);
        } else if body.value.Known? {
          encoder := SetContentLength(body.value.n);
        } else {
          encoder := E.Length(0);
        }
        return;
      }
      if transferEncoding != [] {
        if IsChunked(transferEncoding) {
          ReadableChunked(transferEncoding);
        } else {
          AddedChunked(transferEncoding);
          transferEncoding := AddChunked(transferEncoding);
        }
        encoder := Chunked();
        return;
      }
      if existing.Some? {
        return E.Length(existing.value);
      }
      if body.value.Known? {
        encoder := SetContentLength(body.value.n);
        return;
      }
      if bodyless {
        return E.Length(0);
      }
      InsertedChunked();
      ReadableChunked([CHUNKED]);
      transferEncoding := [CHUNKED];
      encoder := Chunked();
    }
  }

  lemma ReadableChunked(lines: seq<seq<byte>>)
    requires IsChunked(lines)
    ensures Visible(lines[|lines| - 1])
  {
  }

  /** A Transfer-Encoding line that does not read as text cannot be repaired into chunked. */
  lemma UnreadableStaysUnchunked()
    ensures !IsChunked(AddChunked([[200]]))
  {
    AddedChunked([[200]]);
    var odd: seq<byte> := [200];
    assert !VisibleByte(odd[0]);
  }
}
