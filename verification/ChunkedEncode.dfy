/**
 The request body encoder of HTTP/1: chunk framing, sized bodies and trailers, and the round
 trip through the incremental decoder.
 */
module ChunkedEncode {
  import opened Bytes
  import S = ChunkedSpec
  import G = ChunkedGrammar
  import D = ChunkedDecode
  import M = MemRead

  /** Allowed trailer names are kept only once a Trailer header declared some. */
  datatype Kind = Chunked(allowed: Option<seq<seq<byte>>>) | Length(remaining: nat)

  datatype End = Nothing | Suffix(bytes: seq<byte>) | NotEof(missing: nat)

  const LAST_CHUNK: seq<byte> := [48, CR, LF]

  // ----- chunk sizes -----

  function HexChar(v: nat): (b: byte)
    requires v < 16
    ensures S.HexDigit(b) == Some(v)
  {
    if v < 10 then 48 + v else 55 + v
  }

  /** Upper-case hexadecimal without leading zeros, as `{:X}` prints it. */
  function Hex(n: nat): (ds: seq<byte>)
    ensures ds != [] && G.All(ds, G.IsHex) && G.HexValue(ds) == n
  {
    if n < 16 then
      assert [HexChar(n)][..0] == [];
      [HexChar(n)]
    else
      var ds := Hex(n / 16) + [HexChar(n % 16)];
      assert ds[..|ds| - 1] == Hex(n / 16);
      ds
  }

  function Pow16(k: nat): nat {
    if k == 0 then 1 else 16 * Pow16(k - 1)
  }

  lemma {:induction false} HexLength(n: nat, k: nat)
    requires k > 0 && n < Pow16(k)
    ensures |Hex(n)| <= k
    decreases k
  {
    if n >= 16 {
      assert k > 1;
      HexLength(n / 16, k - 1);
    }
  }

  /** The size line of any usize fits the fixed 18-byte buffer, so formatting never fails. */
  lemma SizeLineFits(n: nat)
    requires n <= U64_MAX
    ensures |Hex(n) + CRLF| <= 18
  {
    assert Pow16(4) == 0x1_0000;
    assert Pow16(8) == 0x1_0000 * Pow16(4);
    assert Pow16(12) == 0x1_0000 * Pow16(8);
    assert Pow16(16) == 0x1_0000 * Pow16(12);
    HexLength(n, 16);
  }

  // ----- encoding -----

  function Framed(msg: seq<byte>): seq<byte> {
    Hex(|msg|) + CRLF + msg + CRLF
  }

  function Encoded(kind: Kind, msg: seq<byte>): seq<byte> {
    match kind
    case Chunked(_) => Framed(msg)
    case Length(n) => msg[..Min(n, |msg|)]
  }

  function After(kind: Kind, msg: seq<byte>): Kind {
    match kind
    case Chunked(_) => kind
    case Length(n) => Length(n - Min(n, |msg|))
  }

  function EndOf(kind: Kind): End {
    match kind
    case Chunked(_) => Suffix(LAST_CHUNK + CRLF)
    case Length(n) => if n == 0 then Nothing else NotEof(n)
  }

  class Encoder {
    var kind: Kind

    constructor (kind: Kind)
      ensures this.kind == kind
    {
      this.kind := kind;
    }

    method Encode(msg: seq<byte>) returns (out: seq<byte>)
      requires msg != []
      modifies this
      ensures out == Encoded(old(kind), msg) && kind == After(old(kind), msg)
    {
      match kind
      case Chunked(_) => out := Hex(|msg|) + CRLF + msg + CRLF;
      case Length(n) =>
        if |msg| > n {
          kind := Length(0);
          out := msg[..n];
        } else {
          kind := Length(n - |msg|);
          out := msg;
        }
    }

    /** Encodes the last frame; the result says whether the connection may be kept. */
    method EncodeAndEnd(msg: seq<byte>) returns (out: seq<byte>, keepAlive: bool)
      requires msg != []
      ensures out == Encoded(kind, msg) + (if kind.Chunked? then LAST_CHUNK + CRLF else [])
      ensures keepAlive == !EndOf(After(kind, msg)).NotEof?
    {
      match kind
      case Chunked(_) =>
        out, keepAlive := Hex(|msg|) + CRLF + msg + [CR, LF, 48, CR, LF, CR, LF], true;
        assert out == Framed(msg) + (LAST_CHUNK + CRLF);
      case Length(n) =>
        if |msg| == n {
          out, keepAlive := msg, true;
        } else if |msg| > n {
          out, keepAlive := msg[..n], true;
        } else {
          out, keepAlive := msg, false;
        }
    }
  }

  /** Everything `Encode` emits for a list of frames, and the kind it leaves. */
  function EncodeList(kind: Kind, msgs: seq<seq<byte>>): (r: (seq<byte>, Kind))
    ensures r.1.Chunked? <==> kind.Chunked?
    decreases |msgs|
  {
    if msgs == [] then ([], kind)
    else
      var rest := EncodeList(After(kind, msgs[0]), msgs[1..]);
      (Encoded(kind, msgs[0]) + rest.0, rest.1)
  }

  /** A sized body never exceeds its length and ends cleanly exactly when it reached it. */
  lemma {:induction false} LengthIsExact(n: nat, msgs: seq<seq<byte>>)
    ensures var body := Flatten(msgs);
            var r := EncodeList(Length(n), msgs);
            && r.0 == body[..Min(n, |body|)]
            && r.1 == Length(n - |r.0|)
            && (EndOf(r.1) == Nothing <==> |body| >= n)
    decreases |msgs|
  {
    if msgs != [] {
      var k := Min(n, |msgs[0]|);
      LengthIsExact(n - k, msgs[1..]);
      var body := Flatten(msgs);
      var rest := Flatten(msgs[1..]);
      assert body[..Min(n, |body|)] == msgs[0][..k] + rest[..Min(n - k, |rest|)];
    }
  }

  // ----- trailers -----

  function Ascii(s: string): seq<byte> {
    seq(|s|, i requires 0 <= i < |s| => (s[i] as int) % 256)
  }

  /** Fields that frame or route the message and may not be trailers. */
  const FORBIDDEN: set<seq<byte>> :=
    { Ascii("authorization"), Ascii("cache-control"), Ascii("content-encoding"),
      Ascii("content-length"), Ascii("content-range"), Ascii("content-type"), Ascii("host"),
      Ascii("max-forwards"), Ascii("set-cookie"), Ascii("trailer"),
      Ascii("transfer-encoding"), Ascii("te") }

  /** An iterated header map names a field once and leaves its later values unnamed. */
  datatype Item = Item(name: Option<seq<byte>>, value: seq<byte>)

  datatype Field = Field(name: seq<byte>, value: seq<byte>)

  function Named(items: seq<Item>, cur: seq<byte>): seq<Field> {
    if items == [] then []
    else
      var name := if items[0].name.Some? then items[0].name.value else cur;
      [Field(name, items[0].value)] + Named(items[1..], name)
  }

  predicate Sendable(allowed: seq<seq<byte>>, f: Field) {
    f.name in allowed && f.name !in FORBIDDEN
  }

  function Kept(allowed: seq<seq<byte>>, fs: seq<Field>): (r: seq<Field>)
    ensures forall i | 0 <= i < |r| :: r[i] in fs && Sendable(allowed, r[i])
  {
    if fs == [] then []
    else if Sendable(allowed, fs[0]) then [fs[0]] + Kept(allowed, fs[1..])
    else Kept(allowed, fs[1..])
  }

  lemma {:induction false} KeptAppend(allowed: seq<seq<byte>>, a: seq<Field>, b: seq<Field>)
    ensures Kept(allowed, a + b) == Kept(allowed, a) + Kept(allowed, b)
  {
    if a == [] {
      assert a + b == b;
    } else {
      assert (a + b)[1..] == a[1..] + b;
      KeptAppend(allowed, a[1..], b);
    }
  }

  lemma {:induction false} NamedAppend(items: seq<Item>, last: Item, cur: seq<byte>, now: seq<byte>)
    requires items == [] ==> now == cur
    requires items != [] ==> now == Named(items, cur)[|Named(items, cur)| - 1].name
    requires |Named(items, cur)| == |items|
    ensures Named(items + [last], cur) ==
            Named(items, cur) + [Field(if last.name.Some? then last.name.value else now, last.value)]
    decreases |items|
  {
    if items == [] {
      assert items + [last] == [last];
    } else {
      assert (items + [last])[1..] == items[1..] + [last];
      var name := if items[0].name.Some? then items[0].name.value else cur;
      assert Named(items, cur)[1..] == Named(items[1..], name);
      NamedAppend(items[1..], last, name, now);
    }
  }

  lemma {:induction false} NamedLength(items: seq<Item>, cur: seq<byte>)
    ensures |Named(items, cur)| == |items|
    decreases |items|
  {
    if items != [] {
      NamedLength(items[1..], if items[0].name.Some? then items[0].name.value else cur);
    }
  }

  /** A field line without its CRLF. */
  function Line(f: Field): seq<byte> {
    f.name + [58, SP] + f.value
  }

  function Lines(fs: seq<Field>): seq<seq<byte>> {
    seq(|fs|, i requires 0 <= i < |fs| => Line(fs[i]))
  }

  /** The trailer section, or `None` when no declared and permitted field remains. */
  method EncodeTrailers(kind: Kind, items: seq<Item>) returns (out: Option<seq<byte>>)
    requires items != [] ==> items[0].name.Some?
    ensures var keep := if kind.Chunked? && kind.allowed.Some?
                        then Kept(kind.allowed.value, Named(items, [])) else [];
            out == if keep == [] then None
                   else Some(LAST_CHUNK + G.FieldsBytes(Lines(keep)) + CRLF)
  {
    if kind.Length? || kind.allowed.None? {
      return None;
    }
    var allowed := kind.allowed.value;
    var cur: seq<byte> := [];
    var keep: seq<Field> := [];
    var i := 0;
    while i < |items|
      invariant 0 <= i <= |items|
      invariant keep == Kept(allowed, Named(items[..i], []))
      invariant i == 0 ==> cur == []
      invariant |Named(items[..i], [])| == i
      invariant i > 0 ==> cur == Named(items[..i], [])[i - 1].name
    {
      var it := items[i];
      assert items[..i + 1] == items[..i] + [it];
      NamedAppend(items[..i], it, [], cur);
      if it.name.Some? {
        cur := it.name.value;
      }
      ghost var was := Named(items[..i], []);
      KeptAppend(allowed, was, [Field(cur, it.value)]);
      NamedLength(items[..i + 1], []);
      if cur in allowed && cur !in FORBIDDEN {
        keep := keep + [Field(cur, it.value)];
      }
      i := i + 1;
    }
    assert items[..i] == items;
    if keep == [] {
      return None;
    }
    out := Some(LAST_CHUNK + G.FieldsBytes(Lines(keep)) + CRLF);
  }

  /** What an HTTP field name and value guarantee: no line breaks, and a name is not empty. */
  predicate FieldValid(f: Field) {
    f.name != [] && G.All(f.name, G.IsField) && G.All(f.value, G.IsField)
  }

  // ----- round trip -----

  /** The three ways a chunked body is closed. */
  datatype Close = ByEnd | WithLast(msg: seq<byte>) | ByTrailers(items: seq<Item>)

  /** The trailer fields that are written: declared, permitted and in order. */
  function FieldsOf(kind: Kind, close: Close): seq<Field> {
    if close.ByTrailers? && kind.Chunked? && kind.allowed.Some?
    then Kept(kind.allowed.value, Named(close.items, [])) else []
  }

  function AllFrames(msgs: seq<seq<byte>>, close: Close): seq<seq<byte>> {
    if close.WithLast? then msgs + [close.msg] else msgs
  }

  /** Frames, the last chunk, the trailer lines and a blank line. */
  function Wire(kind: Kind, msgs: seq<seq<byte>>, close: Close): seq<byte> {
    EncodeList(kind, AllFrames(msgs, close)).0 +
    (LAST_CHUNK + (G.FieldsBytes(Lines(FieldsOf(kind, close))) + CRLF))
  }

  lemma {:induction false} EncodeListAppend(kind: Kind, msgs: seq<seq<byte>>, last: seq<byte>)
    requires kind.Chunked?
    ensures EncodeList(kind, msgs + [last]).0 == EncodeList(kind, msgs).0 + Framed(last)
  {
    if msgs == [] {
      assert msgs + [last] == [last];
      assert EncodeList(kind, [last][1..]).0 == [];
    } else {
      assert (msgs + [last])[1..] == msgs[1..] + [last];
      EncodeListAppend(kind, msgs[1..], last);
    }
  }

  lemma NoLines()
    ensures G.FieldsBytes(Lines([])) + CRLF == CRLF
  {
  }

  lemma Regroup(a: seq<byte>, b: seq<byte>, c: seq<byte>)
    ensures a + b + c == a + (b + c)
  {
  }

  /** The frames of a body through the encoder, as the connection writes them. */
  method WriteFrames(enc: Encoder, msgs: seq<seq<byte>>) returns (wire: seq<byte>)
    requires enc.kind.Chunked? && forall i | 0 <= i < |msgs| :: msgs[i] != []
    modifies enc
    ensures enc.kind == old(enc.kind) && wire == EncodeList(enc.kind, msgs).0
  {
    wire := [];
    var i := 0;
    while i < |msgs|
      invariant i <= |msgs| && enc.kind == old(enc.kind)
      invariant wire == EncodeList(enc.kind, msgs[..i]).0
    {
      EncodeListAppend(enc.kind, msgs[..i], msgs[i]);
      assert msgs[..i + 1] == msgs[..i] + [msgs[i]];
      var part := enc.Encode(msgs[i]);
      wire := wire + part;
      i := i + 1;
    }
    assert msgs[..i] == msgs;
  }

  /** How the connection closes the body: trailers with nothing to write end it plainly. */
  method WriteClose(enc: Encoder, close: Close) returns (wire: seq<byte>)
    requires enc.kind.Chunked?
    requires close.WithLast? ==> close.msg != []
    requires close.ByTrailers? && close.items != [] ==> close.items[0].name.Some?
    ensures wire == (if close.WithLast? then Framed(close.msg) else []) +
                    (LAST_CHUNK + (G.FieldsBytes(Lines(FieldsOf(enc.kind, close))) + CRLF))
  {
    NoLines();
    hide Hex, Framed, G.FieldsBytes, Lines;
    match close {
      case ByEnd =>
        wire := EndOf(enc.kind).bytes;
      case WithLast(msg) =>
        var keepAlive;
        wire, keepAlive := enc.EncodeAndEnd(msg);
      case ByTrailers(items) =>
        var block := EncodeTrailers(enc.kind, items);
        if block.None? {
          wire := EndOf(enc.kind).bytes;
        } else {
          wire := block.value;
          Regroup(LAST_CHUNK, G.FieldsBytes(Lines(FieldsOf(enc.kind, close))), CRLF);
        }
    }
    assert [] + wire == wire;
  }

  /** Everything the encoder writes for one body. */
  method Write(kind: Kind, msgs: seq<seq<byte>>, close: Close) returns (wire: seq<byte>)
    requires kind.Chunked?
    requires forall i | 0 <= i < |AllFrames(msgs, close)| :: AllFrames(msgs, close)[i] != []
    requires close.ByTrailers? && close.items != [] ==> close.items[0].name.Some?
    ensures wire == Wire(kind, msgs, close)
  {
    hide Hex, Framed, G.FieldsBytes, Lines, EncodeList, FieldsOf;
    var enc := new Encoder(kind);
    if close.WithLast? {
      EncodeListAppend(kind, msgs, close.msg);
      assert AllFrames(msgs, close)[|msgs|] == close.msg;
    }
    assert forall i | 0 <= i < |msgs| :: msgs[i] == AllFrames(msgs, close)[i];
    var head := WriteFrames(enc, msgs);
    var tail := WriteClose(enc, close);
    wire := head + tail;
    var end := LAST_CHUNK + (G.FieldsBytes(Lines(FieldsOf(kind, close))) + CRLF);
    if close.WithLast? {
      Regroup(head, Framed(close.msg), end);
    } else {
      assert [] + end == end;
    }
  }

  // ----- the encoding is a message -----

  function PlainLine(n: nat): G.SizeLine {
    G.SizeLine(Hex(n), [], None)
  }

  function Tree(msgs: seq<seq<byte>>): seq<G.Chunk> {
    if msgs == [] then [] else [G.Chunk(PlainLine(|msgs[0]|), msgs[0])] + Tree(msgs[1..])
  }

  lemma {:induction false} TreeIsWire(kind: Kind, msgs: seq<seq<byte>>)
    requires kind.Chunked? && forall i | 0 <= i < |msgs| :: msgs[i] != [] && |msgs[i]| <= U64_MAX
    ensures var cs := Tree(msgs);
            && (forall i | 0 <= i < |cs| :: G.ChunkOk(cs[i]))
            && G.ChunksBytes(cs) == EncodeList(kind, msgs).0
            && G.ChunksData(cs) == Flatten(msgs)
            && G.ChunksExt(cs) == 0
  {
    if msgs != [] {
      var rest := Tree(msgs[1..]);
      TreeIsWire(kind, msgs[1..]);
      var c := G.Chunk(PlainLine(|msgs[0]|), msgs[0]);
      assert Tree(msgs)[1..] == rest;
      assert G.ExtText(c.line) == [];
      assert G.ChunkBytes(c) == Framed(msgs[0]);
    }
  }

  /** Nonempty frames, valid header fields, and trailers within the decoder's limits. */
  predicate Encodable(lim: S.Limits, kind: Kind, msgs: seq<seq<byte>>, close: Close) {
    var fs := FieldsOf(kind, close);
    && kind.Chunked?
    && (forall i | 0 <= i < |AllFrames(msgs, close)| ::
          AllFrames(msgs, close)[i] != [] && |AllFrames(msgs, close)[i]| <= U64_MAX)
    && (close.ByTrailers? && close.items != [] ==> close.items[0].name.Some?)
    && (forall i | 0 <= i < |fs| :: FieldValid(fs[i]))
    && (fs != [] ==> |G.FieldsBytes(Lines(fs))| + 2 < lim.maxBytes && |fs| <= lim.maxHeaders)
  }

  function MessageOf(kind: Kind, msgs: seq<seq<byte>>, close: Close): G.Message {
    G.Message(Tree(AllFrames(msgs, close)), PlainLine(0), Lines(FieldsOf(kind, close)))
  }

  lemma LastLine()
    ensures G.LineOk(PlainLine(0)) && G.LineBytes(PlainLine(0)) == LAST_CHUNK
    ensures G.ExtBytes(PlainLine(0)) == 0 && G.HexValue(PlainLine(0).digits) == 0
  {
    assert Hex(0) == [48];
    assert G.ExtText(PlainLine(0)) == [];
    assert G.LineBytes(PlainLine(0)) == [48] + ([] + ([] + CRLF)) == LAST_CHUNK;
  }

  lemma FieldLines(fs: seq<Field>)
    requires forall i | 0 <= i < |fs| :: FieldValid(fs[i])
    ensures forall i | 0 <= i < |fs| :: G.FieldOk(Lines(fs)[i])
  {
    forall i | 0 <= i < |fs|
      ensures G.FieldOk(Lines(fs)[i])
    {
      assert FieldValid(fs[i]);
    }
  }

  /** What is written is the rendering of a message that fits the decoder's limits. */
  lemma WireIsRendered(lim: S.Limits, kind: Kind, msgs: seq<seq<byte>>, close: Close)
    requires Encodable(lim, kind, msgs, close)
    ensures G.Fits(lim, MessageOf(kind, msgs, close))
    ensures G.Render(MessageOf(kind, msgs, close)) == Wire(kind, msgs, close)
    ensures G.ChunksData(MessageOf(kind, msgs, close).chunks) == Flatten(AllFrames(msgs, close))
  {
    hide G.LineBytes, G.LineOk, Hex, G.ChunkOk, G.HexValue, EncodeList, G.FieldOk, PlainLine, FieldsOf, FieldValid;
    TreeIsWire(kind, AllFrames(msgs, close));
    LastLine();
    FieldLines(FieldsOf(kind, close));
  }

  /** The one run over the encoding and whatever follows it. */
  lemma WireRuns(lim: S.Limits, kind: Kind, msgs: seq<seq<byte>>, close: Close, following: seq<byte>)
    requires Encodable(lim, kind, msgs, close)
    ensures var t := S.Run(lim, S.INIT, Wire(kind, msgs, close) + following);
            var fs := FieldsOf(kind, close);
            && t.used == |Wire(kind, msgs, close)| && t.data == Flatten(AllFrames(msgs, close))
            && D.Outcome(t) == if fs == [] then D.Data([])
                               else D.Trailers(G.FieldsBytes(Lines(fs)) + CRLF, |fs|)
  {
    hide S.Run, G.Fits, G.Render, Wire, Encodable;
    WireIsRendered(lim, kind, msgs, close);
    G.AcceptsRendered(lim, MessageOf(kind, msgs, close), following);
  }

  /**
   Every history of polls of the encoding, whatever follows it and however it was cut: once
   settled, exactly the frames' bytes and the trailer block were handed on, and exactly the
   encoding was taken.
   */
  lemma SettledRoundTrip(lim: S.Limits, kind: Kind, msgs: seq<seq<byte>>, close: Close, following: seq<byte>,
                         hist: seq<D.Poll>, end: S.Machine, unread: seq<byte>)
    requires Encodable(lim, kind, msgs, close)
    requires hist != [] && D.Polls(lim, S.INIT, hist, end) && D.Settled(hist[|hist| - 1].out)
    requires D.AtEof(hist[|hist| - 1].out) ==> unread == []
    requires D.Took(hist) + unread == Wire(kind, msgs, close) + following
    ensures D.Took(hist) == Wire(kind, msgs, close) && unread == following
    ensures D.Given(hist) == Flatten(AllFrames(msgs, close))
    ensures var fs := FieldsOf(kind, close);
            hist[|hist| - 1].out ==
            if fs == [] then D.Data([])
            else D.Trailers(G.FieldsBytes(Lines(fs)) + CRLF, |fs|)
  {
    hide S.Run, D.Polls, Wire, Encodable;
    WireRuns(lim, kind, msgs, close, following);
    D.WholeStream(lim, hist, end, unread);
    var wire, s := Wire(kind, msgs, close), D.Took(hist) + unread;
    assert D.Took(hist) == s[..|D.Took(hist)|] && wire == s[..|wire|];
    assert unread == s[|D.Took(hist)|..] && following == s[|wire|..];
  }

  /**
   Round trip, encoder to decoder: for every body, every way to close it, every following
   bytes and every transport whose reads do not break and of which more than the encoding is
   long return bytes, the decoder settles, hands on exactly the frames and the trailer block,
   and leaves exactly what follows unread.
   */
  method RoundTrip(kind: Kind, msgs: seq<seq<byte>>, close: Close, following: seq<byte>, turns: seq<M.Turn>,
                   maxHeaders: Option<nat>, maxHeaderSize: Option<nat>)
    returns (body: seq<byte>, last: D.Polled, unread: seq<byte>)
    requires Encodable(D.LimitsOf(maxHeaders, maxHeaderSize), kind, msgs, close)
    requires M.NoneBroken(turns) && M.Uptos(turns) > |Wire(kind, msgs, close)|
    ensures body == Flatten(AllFrames(msgs, close)) && unread == following
    ensures var fs := FieldsOf(kind, close);
            last == if fs == [] then D.Data([]) else D.Trailers(G.FieldsBytes(Lines(fs)) + CRLF, |fs|)
  {
    var wire := Write(kind, msgs, close);
    WireRuns(D.LimitsOf(maxHeaders, maxHeaderSize), kind, msgs, close, following);
    hide S.Run, Wire, Encodable;
    body, last, unread := D.ReadBody(wire + following, turns, maxHeaders, maxHeaderSize);
    assert (wire + following)[|wire|..] == following;
  }
}
