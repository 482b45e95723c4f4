/**
 The chunked messages of section 7.1 of RFC 9112, as syntax trees, and the proof that the byte
 machine accepts exactly the renderings of the trees that fit the limits.
 */
module ChunkedGrammar {
  import opened Bytes
  import opened ChunkedSpec

  /** A chunk-size line: hex digits, optional white space and an optional extension. */
  datatype SizeLine = SizeLine(digits: seq<byte>, lws: seq<byte>, ext: Option<seq<byte>>)

  datatype Chunk = Chunk(line: SizeLine, data: seq<byte>)

  /** Chunks, the last (zero) chunk's line and the trailer lines without their CRLF. */
  datatype Message = Message(chunks: seq<Chunk>, last: SizeLine, fields: seq<seq<byte>>)

  predicate IsHex(b: byte) { HexDigit(b).Some? }

  predicate IsLws(b: byte) { b == HTAB || b == SP }

  predicate IsExt(b: byte) { b != CR && b != LF }

  predicate IsField(b: byte) { b != CR }

  predicate All(s: seq<byte>, p: byte -> bool) {
    forall i | 0 <= i < |s| :: p(s[i])
  }

  /** The number hex digits denote, most significant first. */
  function HexValue(digits: seq<byte>): nat {
    if digits == [] then 0
    else
      var n := |digits| - 1;
      HexValue(digits[..n]) * 16 + (match HexDigit(digits[n]) case Some(v) => v case None => 0)
  }

  predicate LineOk(l: SizeLine) {
    && l.digits != [] && All(l.digits, IsHex)
    && All(l.lws, IsLws)
    && (l.ext.Some? ==> All(l.ext.value, IsExt))
    && HexValue(l.digits) <= U64_MAX
  }

  function ExtBytes(l: SizeLine): nat {
    if l.ext.Some? then |l.ext.value| else 0
  }

  function ExtText(l: SizeLine): seq<byte> {
    if l.ext.Some? then [59] + l.ext.value else []
  }

  function LineBytes(l: SizeLine): seq<byte> {
    l.digits + (l.lws + (ExtText(l) + CRLF))
  }

  predicate ChunkOk(c: Chunk) {
    LineOk(c.line) && c.data != [] && HexValue(c.line.digits) == |c.data|
  }

  function ChunkBytes(c: Chunk): seq<byte> {
    LineBytes(c.line) + (c.data + CRLF)
  }

  function ChunksBytes(cs: seq<Chunk>): seq<byte> {
    if cs == [] then [] else ChunkBytes(cs[0]) + ChunksBytes(cs[1..])
  }

  function ChunksData(cs: seq<Chunk>): seq<byte> {
    if cs == [] then [] else cs[0].data + ChunksData(cs[1..])
  }

  function ChunksExt(cs: seq<Chunk>): nat {
    if cs == [] then 0 else ExtBytes(cs[0].line) + ChunksExt(cs[1..])
  }

  predicate FieldOk(f: seq<byte>) {
    f != [] && All(f, IsField)
  }

  function FieldsBytes(fs: seq<seq<byte>>): seq<byte> {
    if fs == [] then [] else fs[0] + CRLF + FieldsBytes(fs[1..])
  }

  function Render(msg: Message): seq<byte> {
    ChunksBytes(msg.chunks) + (LineBytes(msg.last) + (FieldsBytes(msg.fields) + CRLF))
  }

  predicate WellFormed(msg: Message) {
    && (forall i | 0 <= i < |msg.chunks| :: ChunkOk(msg.chunks[i]))
    && LineOk(msg.last) && HexValue(msg.last.digits) == 0
    && (forall i | 0 <= i < |msg.fields| :: FieldOk(msg.fields[i]))
  }

  /** The body-wide extension limit and both trailer limits. */
  predicate Fits(lim: Limits, msg: Message) {
    && WellFormed(msg)
    && ChunksExt(msg.chunks) + ExtBytes(msg.last) < EXTENSIONS_LIMIT
    && (msg.fields != [] ==>
          |FieldsBytes(msg.fields)| + 2 < lim.maxBytes && |msg.fields| <= lim.maxHeaders)
  }

  /** The trailer block the decoder hands on: the lines and the final CRLF, if there is a line. */
  function TrailerBlock(fs: seq<seq<byte>>): Option<seq<byte>> {
    if fs == [] then None else Some(FieldsBytes(fs) + CRLF)
  }

  /** The length of the longest prefix of bytes satisfying `p`. */
  function Span(s: seq<byte>, p: byte -> bool): (n: nat)
    ensures n <= |s| && All(s[..n], p) && (n < |s| ==> !p(s[n]))
  {
    if s == [] || !p(s[0]) then 0
    else
      var n := Span(s[1..], p);
      assert s[..n + 1] == [s[0]] + s[1..][..n];
      n + 1
  }

  /** `Run` on a nonempty stream, one byte unfolded. */
  lemma RunOne(lim: Limits, m: Machine, s: seq<byte>)
    requires Valid(m) && !m.state.End? && s != []
    ensures var step := StepByte(lim, m, s[0]);
            Run(lim, m, s) ==
            if step.Bad? then Trace(step.m, [], 1, Failed(step.fault))
            else
              var t := Run(lim, step.m, s[1..]);
              Trace(t.m, Emits(m, s[0]) + t.data, 1 + t.used, t.verdict)
  {
  }

  /** An accepted stream has a first byte the machine takes, and the rest is accepted from there. */
  lemma PeelByte(lim: Limits, m: Machine, s: seq<byte>)
    requires Valid(m) && !m.state.End? && Run(lim, m, s).verdict.Done?
    ensures s != [] && StepByte(lim, m, s[0]).Next?
    ensures Run(lim, StepByte(lim, m, s[0]).m, s[1..]).verdict.Done?
  {
  }

  // ----- size lines -----

  /** A run of hex digits is read as its exact value, and overflows exactly above u64. */
  lemma {:induction false} RunDigits(lim: Limits, m: Machine, ds: seq<byte>)
    requires Valid(m) && m.state.Start? && ds != [] && All(ds, IsHex)
    ensures Run(lim, m, ds).verdict == Failed(Overflow) <==> HexValue(ds) > U64_MAX
    ensures HexValue(ds) <= U64_MAX ==>
              Run(lim, m, ds) == Trace(m.(state := Size, chunkLen := HexValue(ds)), [], |ds|, NeedMore)
    decreases |ds|
  {
    var n := |ds| - 1;
    assert ds == ds[..n] + [ds[n]];
    if n == 0 {
      assert HexValue(ds[..0]) == 0;
      assert ds[1..] == [];
    } else {
      RunDigits(lim, m, ds[..n]);
      RunSplit(lim, m, ds[..n], [ds[n]]);
    }
  }

  lemma {:induction false} RunLws(lim: Limits, m: Machine, ws: seq<byte>)
    requires Valid(m) && m.state in {Size, SizeLws} && All(ws, IsLws)
    ensures Run(lim, m, ws) ==
            Trace(if ws == [] then m else m.(state := SizeLws), [], |ws|, NeedMore)
    decreases |ws|
  {
    if ws != [] {
      RunLws(lim, m.(state := SizeLws), ws[1..]);
    }
  }

  /** Extension bytes are skipped and counted; reaching the body-wide limit fails. */
  lemma {:induction false} RunExt(lim: Limits, m: Machine, e: seq<byte>)
    requires Valid(m) && m.state.Extension? && All(e, IsExt)
    ensures Run(lim, m, e) ==
            if m.extensions + |e| < EXTENSIONS_LIMIT
            then Trace(m.(extensions := m.extensions + |e|), [], |e|, NeedMore)
            else Trace(m.(extensions := EXTENSIONS_LIMIT), [],
                       EXTENSIONS_LIMIT - m.extensions, Failed(ExtensionsOverLimit))
    decreases |e|
  {
    if e != [] && m.extensions + 1 < EXTENSIONS_LIMIT {
      RunExt(lim, m.(extensions := m.extensions + 1), e[1..]);
    }
  }

  lemma RunSizeEnd(lim: Limits, m: Machine)
    requires Valid(m) && m.state in {Size, SizeLws, Extension}
    ensures Run(lim, m, CRLF) ==
            Trace(m.(state := if m.chunkLen == 0 then EndCr else Body), [], 2, NeedMore)
  {
    assert CRLF[1..] == [LF] && [LF][1..] == [];
    assert Run(lim, m, CRLF).m == Run(lim, m.(state := SizeLf), [LF]).m;
  }

  /** The machine after a whole size line. */
  function AfterLine(m: Machine, l: SizeLine): Machine {
    var v := HexValue(l.digits);
    m.(state := if v == 0 then EndCr else Body, chunkLen := v, extensions := m.extensions + ExtBytes(l))
  }

  lemma RunExtText(lim: Limits, m: Machine, l: SizeLine)
    requires Valid(m) && m.state in {Size, SizeLws} && LineOk(l)
    requires m.extensions + ExtBytes(l) < EXTENSIONS_LIMIT
    ensures Run(lim, m, ExtText(l) + CRLF) ==
            Trace(m.(state := if m.chunkLen == 0 then EndCr else Body,
                     extensions := m.extensions + ExtBytes(l)), [], |ExtText(l)| + 2, NeedMore)
  {
    hide Run;
    match l.ext
    case None =>
      assert ExtText(l) + CRLF == CRLF;
      RunSizeEnd(lim, m);
    case Some(e) =>
      var x := m.(state := Extension);
      var rest := e + CRLF;
      assert ExtText(l) + CRLF == [59] + rest;
      assert ([59] + rest)[1..] == rest;
      RunOne(lim, m, [59] + rest);
      RunExt(lim, x, e);
      RunSplit(lim, x, e, CRLF);
      RunSizeEnd(lim, x.(extensions := x.extensions + |e|));
  }

  lemma RunLine(lim: Limits, m: Machine, l: SizeLine)
    requires Valid(m) && m.state.Start? && LineOk(l)
    requires m.extensions + ExtBytes(l) < EXTENSIONS_LIMIT
    ensures Run(lim, m, LineBytes(l)) == Trace(AfterLine(m, l), [], |LineBytes(l)|, NeedMore)
  {
    hide Run;
    RunDigits(lim, m, l.digits);
    var sized := m.(state := Size, chunkLen := HexValue(l.digits));
    RunSplit(lim, m, l.digits, l.lws + (ExtText(l) + CRLF));
    RunLws(lim, sized, l.lws);
    RunSplit(lim, sized, l.lws, ExtText(l) + CRLF);
    RunExtText(lim, Run(lim, sized, l.lws).m, l);
  }

  // ----- chunks -----

  /** A body slice of any length up to the chunk's remainder passes through unchanged. */
  lemma {:induction false} RunBody(lim: Limits, m: Machine, d: seq<byte>)
    requires Valid(m) && m.state.Body? && |d| <= m.chunkLen
    ensures Run(lim, m, d) ==
            Trace(m.(chunkLen := m.chunkLen - |d|,
                     state := if |d| < m.chunkLen then Body else BodyCr), d, |d|, NeedMore)
    decreases |d|
  {
    if d != [] {
      var m' := StepByte(lim, m, d[0]).m;
      if |d| > 1 {
        RunBody(lim, m', d[1..]);
      } else {
        assert d[1..] == [];
      }
      assert [d[0]] + d[1..] == d;
    }
  }

  lemma RunBodyEnd(lim: Limits, m: Machine)
    requires Valid(m) && m.state.BodyCr?
    ensures Run(lim, m, CRLF) == Trace(m.(state := Start), [], 2, NeedMore)
  {
    assert CRLF[1..] == [LF] && [LF][1..] == [];
    assert Run(lim, m, CRLF).m == Run(lim, m.(state := BodyLf), [LF]).m;
  }

  lemma RunChunk(lim: Limits, m: Machine, c: Chunk)
    requires Valid(m) && m.state.Start? && ChunkOk(c)
    requires m.extensions + ExtBytes(c.line) < EXTENSIONS_LIMIT
    ensures Run(lim, m, ChunkBytes(c)) ==
            Trace(m.(extensions := m.extensions + ExtBytes(c.line)), c.data, |ChunkBytes(c)|, NeedMore)
  {
    hide Run;
    RunLine(lim, m, c.line);
    var body := AfterLine(m, c.line);
    RunSplit(lim, m, LineBytes(c.line), c.data + CRLF);
    RunBody(lim, body, c.data);
    RunSplit(lim, body, c.data, CRLF);
    RunBodyEnd(lim, Run(lim, body, c.data).m);
    assert [] + (c.data + []) == c.data;
  }

  lemma {:induction false} RunChunks(lim: Limits, m: Machine, cs: seq<Chunk>)
    requires Valid(m) && m.state.Start?
    requires forall i | 0 <= i < |cs| :: ChunkOk(cs[i])
    requires m.extensions + ChunksExt(cs) < EXTENSIONS_LIMIT
    ensures Run(lim, m, ChunksBytes(cs)) ==
            Trace(m.(extensions := m.extensions + ChunksExt(cs)), ChunksData(cs), |ChunksBytes(cs)|, NeedMore)
    decreases |cs|
  {
    hide Run, StepByte, ChunkBytes, ChunkOk;
    if cs == [] {
      RunNothing(lim, m);
    } else {
      RunChunk(lim, m, cs[0]);
      RunSplit(lim, m, ChunkBytes(cs[0]), ChunksBytes(cs[1..]));
      RunChunks(lim, m.(extensions := m.extensions + ExtBytes(cs[0].line)), cs[1..]);
    }
  }

  // ----- trailers -----

  function Stored(m: Machine): seq<byte> {
    if m.trailers.Some? then m.trailers.value else []
  }

  /** Trailer text is stored byte for byte while it stays under the byte limit. */
  lemma {:induction false} RunText(lim: Limits, m: Machine, g: seq<byte>)
    requires Valid(m) && m.state.Trailer? && All(g, IsField) && g != []
    ensures |Stored(m)| + |g| < lim.maxBytes ==>
              Run(lim, m, g) == Trace(m.(trailers := Some(Stored(m) + g)), [], |g|, NeedMore)
    ensures |Stored(m)| + |g| >= lim.maxBytes ==> Run(lim, m, g).verdict == Failed(TrailerBytesOverLimit)
    decreases |g|
  {
    var s := StepByte(lim, m, g[0]);
    if s.Next? && |g| > 1 {
      RunText(lim, s.m, g[1..]);
      assert Stored(s.m) + g[1..] == Stored(m) + g;
    } else {
      assert g[1..] == [] || s.Bad?;
      assert |g| == 1 ==> g == [g[0]];
    }
  }

  /** A field line's CRLF ends it, within both limits or not at all. */
  lemma RunFieldEnd(lim: Limits, m: Machine)
    requires Valid(m) && m.state.Trailer?
    ensures var ok := |Stored(m)| + 2 < lim.maxBytes && m.trailerCount < lim.maxHeaders;
            && (ok ==> Run(lim, m, CRLF) ==
                       Trace(m.(state := EndCr, trailers := Some(Stored(m) + CRLF),
                                trailerCount := m.trailerCount + 1), [], 2, NeedMore))
            && (!ok ==> Run(lim, m, CRLF).verdict.Failed?)
  {
    hide Run;
    assert CRLF[1..] == [LF] && [LF][1..] == [];
    RunOne(lim, m, CRLF);
    var s := StepByte(lim, m, CR);
    if s.Next? {
      RunOne(lim, s.m, [LF]);
      assert Stored(m) + [CR] + [LF] == Stored(m) + CRLF;
      var t := StepByte(lim, s.m, LF);
      if t.Next? {
        RunNothing(lim, t.m);
      }
    }
  }

  /** The machine that has stored a field's text but not its CRLF. */
  function InField(m: Machine, f: seq<byte>): Machine {
    m.(state := Trailer, trailers := Some(Stored(m) + f))
  }

  lemma FirstFieldByte(lim: Limits, m: Machine, b: byte)
    requires Valid(m) && m.state.EndCr? && b != CR
    ensures var step := StepByte(lim, m, b);
            (step.Next? ==> step.m == InField(m, [b])) && (|Stored(m)| + 1 < lim.maxBytes ==> step.Next?)
  {
    assert [] + [b] == [b];
  }

  /** A field's text; the limit is not checked on the very first stored byte. */
  lemma RunFieldText(lim: Limits, m: Machine, f: seq<byte>)
    requires Valid(m) && m.state.EndCr? && FieldOk(f)
    ensures |Stored(m)| + |f| < lim.maxBytes ==> Run(lim, m, f) == Trace(InField(m, f), [], |f|, NeedMore)
    ensures var t := Run(lim, m, f); t.verdict.Failed? || t == Trace(InField(m, f), [], |f|, NeedMore)
  {
    hide Run, StepByte;
    FirstFieldByte(lim, m, f[0]);
    var step := StepByte(lim, m, f[0]);
    RunOne(lim, m, f);
    if step.Next? {
      assert Stored(m) + [f[0]] + f[1..] == Stored(m) + f;
      if |f| > 1 {
        RunText(lim, step.m, f[1..]);
      } else {
        assert f[1..] == [] && f == [f[0]];
        RunNothing(lim, step.m);
      }
    }
  }

  /** A field after `EndCr`: stored with its CRLF and counted once. */
  lemma RunField(lim: Limits, m: Machine, f: seq<byte>)
    requires Valid(m) && m.state.EndCr? && FieldOk(f)
    ensures var ok := |Stored(m)| + |f| + 2 < lim.maxBytes && m.trailerCount < lim.maxHeaders;
            && (ok ==> Run(lim, m, f + CRLF) ==
                       Trace(m.(trailers := Some(Stored(m) + f + CRLF), trailerCount := m.trailerCount + 1),
                             [], |f| + 2, NeedMore))
            && (!ok ==> Run(lim, m, f + CRLF).verdict.Failed?)
  {
    hide Run;
    RunFieldText(lim, m, f);
    RunSplit(lim, m, f, CRLF);
    if Run(lim, m, f).verdict.NeedMore? {
      RunFieldEnd(lim, InField(m, f));
    }
  }

  /** The blank line: stored with the trailers if there are any, else only consumed. */
  lemma RunBlank(lim: Limits, m: Machine)
    requires Valid(m) && m.state.EndCr?
    ensures m.trailers.None? ==> Run(lim, m, CRLF) == Trace(m.(state := End), [], 2, Done)
    ensures m.trailers.Some? && |Stored(m)| + 2 < lim.maxBytes ==>
              Run(lim, m, CRLF) == Trace(m.(state := End, trailers := Some(Stored(m) + CRLF)), [], 2, Done)
    ensures m.trailers.Some? && |Stored(m)| + 2 >= lim.maxBytes ==> Run(lim, m, CRLF).verdict.Failed?
  {
    assert CRLF[1..] == [LF] && [LF][1..] == [];
    var s := StepByte(lim, m, CR);
    if s.Next? {
      RunOne(lim, m, CRLF);
      RunOne(lim, s.m, [LF]);
      if m.trailers.Some? {
        assert Stored(m) + [CR] + [LF] == Stored(m) + CRLF;
      }
    }
  }

  /** The trailer section from `EndCr`, given what an earlier line already stored. */
  lemma {:induction false} RunFields(lim: Limits, m: Machine, fs: seq<seq<byte>>)
    requires Valid(m) && m.state.EndCr?
    requires forall i | 0 <= i < |fs| :: FieldOk(fs[i])
    requires m.trailers.Some? || fs != [] ==> |Stored(m)| + |FieldsBytes(fs)| + 2 < lim.maxBytes
    requires m.trailerCount + |fs| <= lim.maxHeaders || fs == []
    ensures Run(lim, m, FieldsBytes(fs) + CRLF) ==
            Trace(m.(state := End, trailerCount := m.trailerCount + |fs|,
                     trailers := if m.trailers.None? && fs == [] then None
                                 else Some(Stored(m) + FieldsBytes(fs) + CRLF)),
                  [], |FieldsBytes(fs)| + 2, Done)
    decreases |fs|
  {
    hide Run;
    if fs == [] {
      assert FieldsBytes(fs) + CRLF == CRLF;
      assert Stored(m) + FieldsBytes(fs) + CRLF == Stored(m) + CRLF;
      RunBlank(lim, m);
    } else {
      var line := fs[0] + CRLF;
      var rest := FieldsBytes(fs[1..]);
      assert FieldsBytes(fs) + CRLF == line + (rest + CRLF);
      RunField(lim, m, fs[0]);
      hide FieldOk;
      RunSplit(lim, m, line, rest + CRLF);
      var m' := Run(lim, m, line).m;
      RunFields(lim, m', fs[1..]);
      assert Stored(m') + rest + CRLF == Stored(m) + FieldsBytes(fs) + CRLF;
    }
  }

  // ----- the accepted language -----

  /** Where a rendered message leaves the machine. */
  function Final(msg: Message): Machine {
    Machine(End, 0, ChunksExt(msg.chunks) + ExtBytes(msg.last), TrailerBlock(msg.fields), |msg.fields|)
  }

  lemma RenderedRun(lim: Limits, msg: Message)
    requires Fits(lim, msg)
    ensures Run(lim, INIT, Render(msg)) == Trace(Final(msg), ChunksData(msg.chunks), |Render(msg)|, Done)
  {
    hide Run, FieldOk, ChunkOk, LineOk;
    var cs := ChunksBytes(msg.chunks);
    var line := LineBytes(msg.last);
    var section := FieldsBytes(msg.fields) + CRLF;
    RunChunks(lim, INIT, msg.chunks);
    var m1 := Run(lim, INIT, cs).m;
    RunSplit(lim, INIT, cs, line + section);
    RunLine(lim, m1, msg.last);
    RunSplit(lim, m1, line, section);
    var m2 := AfterLine(m1, msg.last);
    RunFields(lim, m2, msg.fields);
    assert Stored(m2) + FieldsBytes(msg.fields) + CRLF == FieldsBytes(msg.fields) + CRLF;
    assert ChunksData(msg.chunks) + ([] + []) == ChunksData(msg.chunks);
  }

  /** Every fitting message is decoded to its data and trailer block, consuming exactly its bytes. */
  lemma AcceptsRendered(lim: Limits, msg: Message, tail: seq<byte>)
    requires Fits(lim, msg)
    ensures Run(lim, INIT, Render(msg) + tail) ==
            Trace(Final(msg), ChunksData(msg.chunks), |Render(msg)|, Done)
  {
    RenderedRun(lim, msg);
    hide Run, Fits, Render, Final, ChunksData;
    RunSplit(lim, INIT, Render(msg), tail);
  }

  /** The tail of a stream after a prefix that needed more input reaches the same verdict. */
  lemma Peel(lim: Limits, m: Machine, s: seq<byte>, k: nat)
    requires Valid(m) && k <= |s|
    requires Run(lim, m, s).verdict.Done?
    requires !m.state.End?
    ensures var t := Run(lim, m, s[..k]);
            t.verdict.NeedMore? ==> Run(lim, t.m, s[k..]).verdict.Done?
    ensures !Run(lim, m, s[..k]).verdict.Failed?
  {
    hide Run;
    assert s == s[..k] + s[k..];
    RunSplit(lim, m, s[..k], s[k..]);
  }

  /** Reads the optional extension and the CRLF back out of an accepted stream. */
  lemma ExtTextSound(lim: Limits, m: Machine, s: seq<byte>) returns (ext: Option<seq<byte>>)
    requires Valid(m) && m.state in {Size, SizeLws} && Run(lim, m, s).verdict.Done?
    requires s != [] ==> !IsLws(s[0]) && !IsHex(s[0])
    ensures ext.Some? ==> All(ext.value, IsExt)
    ensures (if ext.Some? then [59] + ext.value else []) + CRLF <= s
    ensures m.extensions + (if ext.Some? then |ext.value| else 0) < EXTENSIONS_LIMIT
  {
    hide Run;
    PeelByte(lim, m, s);
    if s[0] == CR {
      ext := None;
      PeelByte(lim, m.(state := SizeLf), s[1..]);
    } else {
      var x := m.(state := Extension);
      var r := s[1..];
      var e := Span(r, IsExt);
      RunExt(lim, x, r[..e]);
      Peel(lim, x, r, e);
      var x' := Run(lim, x, r[..e]).m;
      var u := r[e..];
      PeelByte(lim, x', u);
      PeelByte(lim, x'.(state := SizeLf), u[1..]);
      ext := Some(r[..e]);
      assert s[..3 + e] == [59] + r[..e] + CRLF;
    }
  }

  /** Reads a size line back out of an accepted stream. */
  lemma LineSound(lim: Limits, m: Machine, s: seq<byte>) returns (l: SizeLine)
    requires Valid(m) && m.state.Start? && Run(lim, m, s).verdict.Done?
    ensures LineOk(l) && LineBytes(l) <= s && m.extensions + ExtBytes(l) < EXTENSIONS_LIMIT
  {
    hide Run;
    var k := Span(s, IsHex);
    PeelByte(lim, m, s);
    RunDigits(lim, m, s[..k]);
    Peel(lim, m, s, k);
    var sized := Run(lim, m, s[..k]).m;
    var r := s[k..];
    var j := Span(r, IsLws);
    RunLws(lim, sized, r[..j]);
    Peel(lim, sized, r, j);
    var m' := Run(lim, sized, r[..j]).m;
    var u := r[j..];
    PeelByte(lim, m', u);
    var ext := ExtTextSound(lim, m', u);
    l := SizeLine(s[..k], r[..j], ext);
    assert s == s[..k] + (r[..j] + u);
    assert s[..|LineBytes(l)|] == LineBytes(l);
  }

  /** Reads the trailer lines back out of an accepted stream. */
  lemma {:induction false} FieldsSound(lim: Limits, m: Machine, s: seq<byte>) returns (fs: seq<seq<byte>>)
    requires Valid(m) && m.state.EndCr? && Run(lim, m, s).verdict.Done?
    ensures forall i | 0 <= i < |fs| :: FieldOk(fs[i])
    ensures FieldsBytes(fs) + CRLF <= s
    ensures m.trailers.Some? || fs != [] ==> |Stored(m)| + |FieldsBytes(fs)| + 2 < lim.maxBytes
    ensures m.trailerCount + |fs| <= lim.maxHeaders || fs == []
    decreases |s|
  {
    hide Run;
    PeelByte(lim, m, s);
    if s[0] == CR {
      fs := [];
      PeelByte(lim, StepByte(lim, m, CR).m, s[1..]);
      assert s[..2] == CRLF;
      Peel(lim, m, s, 2);
      RunBlank(lim, m);
      assert FieldsBytes(fs) + CRLF == CRLF;
    } else {
      var k := Span(s, IsField);
      var f := s[..k];
      var n := FieldLineEnds(lim, m, s, k);
      assert s[..k + 2] == f + CRLF;
      RunField(lim, m, f);
      Peel(lim, m, s, k + 2);
      var m' := Run(lim, m, f + CRLF).m;
      var rest := FieldsSound(lim, m', s[k + 2..]);
      fs := [f] + rest;
      assert fs[1..] == rest;
      assert FieldsBytes(fs) == f + CRLF + FieldsBytes(rest);
      assert s == f + CRLF + s[k + 2..];
    }
  }

  /** In an accepted stream the text of a trailer line is followed by CRLF. */
  lemma FieldLineEnds(lim: Limits, m: Machine, s: seq<byte>, k: nat) returns (n: nat)
    requires Valid(m) && m.state.EndCr? && Run(lim, m, s).verdict.Done?
    requires 0 < k <= |s| && FieldOk(s[..k]) && (k < |s| ==> s[k] == CR)
    ensures n == k + 2 && n <= |s| && s[k..n] == CRLF
  {
    hide Run;
    n := k + 2;
    RunFieldText(lim, m, s[..k]);
    Peel(lim, m, s, k);
    var t := InField(m, s[..k]);
    PeelByte(lim, t, s[k..]);
    PeelByte(lim, StepByte(lim, t, CR).m, s[k..][1..]);
  }

  /** Reads the chunks and the last line back out of an accepted stream. */
  lemma {:induction false} ChunksSound(lim: Limits, m: Machine, s: seq<byte>)
    returns (cs: seq<Chunk>, last: SizeLine)
    requires Valid(m) && m.state.Start? && Run(lim, m, s).verdict.Done?
    ensures forall i | 0 <= i < |cs| :: ChunkOk(cs[i])
    ensures LineOk(last) && HexValue(last.digits) == 0
    ensures m.extensions + ChunksExt(cs) + ExtBytes(last) < EXTENSIONS_LIMIT
    ensures ChunksBytes(cs) + LineBytes(last) <= s
    decreases |s|
  {
    hide Run, LineBytes, LineOk, HexValue;
    var l := LineSound(lim, m, s);
    var n := |LineBytes(l)|;
    assert s[..n] == LineBytes(l);
    RunLine(lim, m, l);
    Peel(lim, m, s, n);
    var v := HexValue(l.digits);
    if v == 0 {
      cs, last := [], l;
      assert ChunksBytes(cs) + LineBytes(last) == LineBytes(last);
    } else {
      var body := AfterLine(m, l);
      var r := s[n..];
      var k := Min(v, |r|);
      RunBody(lim, body, r[..k]);
      Peel(lim, body, r, k);
      var u := r[k..];
      var bodyCr := Run(lim, body, r[..k]).m;
      PeelByte(lim, bodyCr, u);
      assert k == v;
      PeelByte(lim, bodyCr.(state := BodyLf), u[1..]);
      assert u[..2] == CRLF;
      RunBodyEnd(lim, bodyCr);
      Peel(lim, bodyCr, u, 2);
      var c := Chunk(l, r[..k]);
      var more;
      more, last := ChunksSound(lim, bodyCr.(state := Start), u[2..]);
      cs := [c] + more;
      assert cs[1..] == more;
      assert s == ChunkBytes(c) + u[2..];
      assert ChunksBytes(cs) + LineBytes(last) == ChunkBytes(c) + (ChunksBytes(more) + LineBytes(last));
    }
  }

  /** An accepted stream starts with a fitting message. */
  lemma AcceptedIsRendered(lim: Limits, s: seq<byte>) returns (msg: Message)
    requires Run(lim, INIT, s).verdict.Done?
    ensures Fits(lim, msg) && Render(msg) <= s
  {
    hide Run, StepByte, LineBytes, LineOk, HexValue, ChunksBytes, FieldsBytes, ChunkOk;
    var cs, last := ChunksSound(lim, INIT, s);
    var head := ChunksBytes(cs) + LineBytes(last);
    var k := |head|;
    assert s[..k] == head;
    RunChunks(lim, INIT, cs);
    var m1 := Run(lim, INIT, ChunksBytes(cs)).m;
    RunSplit(lim, INIT, ChunksBytes(cs), LineBytes(last));
    RunLine(lim, m1, last);
    Peel(lim, INIT, s, k);
    var fs := FieldsSound(lim, AfterLine(m1, last), s[k..]);
    msg := Message(cs, last, fs);
    assert Render(msg) == head + (FieldsBytes(fs) + CRLF);
    assert s == head + s[k..];
  }

  /** The decoder accepts a stream exactly when a message fitting the limits starts it. */
  lemma AcceptsExactlyTheGrammar(lim: Limits, s: seq<byte>)
    ensures Run(lim, INIT, s).verdict.Done? <==> exists msg :: Fits(lim, msg) && Render(msg) <= s
  {
    hide Run;
    if Run(lim, INIT, s).verdict.Done? {
      var msg := AcceptedIsRendered(lim, s);
    }
    forall msg | Fits(lim, msg) && Render(msg) <= s
      ensures Run(lim, INIT, s).verdict.Done?
    {
      assert s == Render(msg) + s[|Render(msg)|..];
      AcceptsRendered(lim, msg, s[|Render(msg)|..]);
    }
  }
}
