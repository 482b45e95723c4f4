/**
 The chunked transfer coding as one machine step per byte, and its meaning over a whole byte
 stream. Every fragmentation of the stream is compared with `Run`, which never sees fragments.
 */
module ChunkedSpec {
  import opened Bytes

  /** Body-wide limit on chunk extension bytes. */
  const EXTENSIONS_LIMIT: nat := 16 * 1024
  const TRAILER_LIMIT: nat := 16 * 1024
  const DEFAULT_MAX_HEADERS: nat := 100

  datatype State =
    | Start | Size | SizeLws | Extension | SizeLf
    | Body | BodyCr | BodyLf
    | Trailer | TrailerLf | EndCr | EndLf | End

  datatype Fault =
    | MissingDigit | InvalidSize | Overflow | InvalidLws | ExtensionNewline | ExtensionsOverLimit
    | InvalidSizeLf | InvalidBodyCr | InvalidBodyLf
    | TrailerBytesOverLimit | TrailerCountOverflow | InvalidTrailerLf | InvalidEndLf

  datatype Limits = Limits(maxHeaders: nat, maxBytes: nat)

  datatype Machine = Machine(
    state: State,
    chunkLen: nat,
    extensions: nat,
    trailers: Option<seq<byte>>,
    trailerCount: nat)

  const INIT: Machine := Machine(Start, 0, 0, None, 0)

  /** What every reachable machine keeps: a size fits u64, a body is never entered empty. */
  predicate Valid(m: Machine) {
    && m.chunkLen <= U64_MAX
    && (m.state in {Start, BodyCr, BodyLf, Trailer, TrailerLf, EndCr, EndLf, End} ==> m.chunkLen == 0)
    && (m.state.Body? ==> m.chunkLen > 0)
    && (m.state in {Trailer, TrailerLf} ==> m.trailers.Some?)
    && (m.state in {Start, Size, SizeLws, Extension, SizeLf, Body, BodyCr, BodyLf} ==> m.trailers.None?)
    && m.extensions < EXTENSIONS_LIMIT
  }

  datatype Step = Next(m: Machine) | Bad(m: Machine, fault: Fault)

  function HexDigit(b: byte): (v: Option<nat>)
    ensures v.Some? ==> v.value < 16
  {
    if 48 <= b <= 57 then Some(b - 48)
    else if 97 <= b <= 102 then Some(b - 87)
    else if 65 <= b <= 70 then Some(b - 55)
    else None
  }

  /** Multiplies the size by sixteen and adds a digit, both checked against u64. */
  function Digit(m: Machine, v: nat): (s: Step)
    requires v < 16
  {
    if m.chunkLen * 16 > U64_MAX then Bad(m, Overflow)
    else if m.chunkLen * 16 + v > U64_MAX then Bad(m.(chunkLen := m.chunkLen * 16), Overflow)
    else Next(m.(state := Size, chunkLen := m.chunkLen * 16 + v))
  }

  /** Appends a trailer byte; the limit is checked after the byte is stored. */
  function PutTrailer(lim: Limits, m: Machine, b: byte, next: State): (s: Step)
    requires m.trailers.Some?
  {
    var t := m.trailers.value + [b];
    var m' := m.(trailers := Some(t));
    if |t| >= lim.maxBytes then Bad(m', TrailerBytesOverLimit) else Next(m'.(state := next))
  }

  function StepByte(lim: Limits, m: Machine, b: byte): (s: Step)
    requires Valid(m) && !m.state.End?
    ensures s.Next? ==> Valid(s.m)
  {
    match m.state
    case Start =>
      (match HexDigit(b)
       case Some(v) => Digit(m, v)
       case None => Bad(m, MissingDigit))
    case Size =>
      (match HexDigit(b)
       case Some(v) => Digit(m, v)
       case None =>
         if b == HTAB || b == SP then Next(m.(state := SizeLws))
         else if b == 59 then Next(m.(state := Extension))
         else if b == CR then Next(m.(state := SizeLf))
         else Bad(m, InvalidSize))
    case SizeLws =>
      if b == HTAB || b == SP then Next(m)
      else if b == 59 then Next(m.(state := Extension))
      else if b == CR then Next(m.(state := SizeLf))
      else Bad(m, InvalidLws)
    case Extension =>
      if b == CR then Next(m.(state := SizeLf))
      else if b == LF then Bad(m, ExtensionNewline)
      else
        var m' := m.(extensions := m.extensions + 1);
        if m'.extensions >= EXTENSIONS_LIMIT then Bad(m', ExtensionsOverLimit) else Next(m')
    case SizeLf =>
      if b == LF then Next(m.(state := if m.chunkLen == 0 then EndCr else Body))
      else Bad(m, InvalidSizeLf)
    case Body =>
      var left := m.chunkLen - 1;
      Next(m.(chunkLen := left, state := if left > 0 then Body else BodyCr))
    case BodyCr => if b == CR then Next(m.(state := BodyLf)) else Bad(m, InvalidBodyCr)
    case BodyLf => if b == LF then Next(m.(state := Start)) else Bad(m, InvalidBodyLf)
    case Trailer => PutTrailer(lim, m, b, if b == CR then TrailerLf else Trailer)
    case TrailerLf =>
      if b != LF then Bad(m, InvalidTrailerLf)
      else if m.trailerCount >= lim.maxHeaders then Bad(m, TrailerCountOverflow)
      else PutTrailer(lim, m.(trailerCount := m.trailerCount + 1), b, EndCr)
    case EndCr =>
      if b == CR then
        if m.trailers.Some? then PutTrailer(lim, m, b, EndLf) else Next(m.(state := EndLf))
      else if m.trailers.Some? then PutTrailer(lim, m, b, Trailer)
      // The first trailer byte is stored without a limit check.
      else Next(m.(trailers := Some([b]), state := Trailer))
    case EndLf =>
      if b != LF then Bad(m, InvalidEndLf)
      else if m.trailers.Some? then PutTrailer(lim, m, b, End)
      else Next(m.(state := End))
  }

  datatype Verdict = NeedMore | Done | Failed(fault: Fault)

  /** The machine reached, the body bytes produced, the bytes consumed and the verdict. */
  datatype Trace = Trace(m: Machine, data: seq<byte>, used: nat, verdict: Verdict)

  function Emits(m: Machine, b: byte): seq<byte> {
    if m.state.Body? then [b] else []
  }

  function Run(lim: Limits, m: Machine, input: seq<byte>): (t: Trace)
    requires Valid(m)
    ensures t.used <= |input|
    ensures t.verdict.NeedMore? ==> t.used == |input| && !t.m.state.End?
    ensures t.verdict.Done? <==> t.m.state.End? && !t.verdict.Failed?
    ensures !t.verdict.Failed? ==> Valid(t.m)
    decreases |input|
  {
    if m.state.End? then Trace(m, [], 0, Done)
    else if input == [] then Trace(m, [], 0, NeedMore)
    else
      match StepByte(lim, m, input[0])
      case Bad(m', fault) => Trace(m', [], 1, Failed(fault))
      case Next(m') =>
        var t := Run(lim, m', input[1..]);
        Trace(t.m, Emits(m, input[0]) + t.data, 1 + t.used, t.verdict)
  }

  lemma RunNothing(lim: Limits, m: Machine)
    requires Valid(m)
    ensures Run(lim, m, []) == Trace(m, [], 0, if m.state.End? then Done else NeedMore)
  {
  }

  /** `first` continued by `second`. */
  function Then(first: Trace, second: Trace): (t: Trace)
  {
    Trace(second.m, first.data + second.data, first.used + second.used, second.verdict)
  }

  /** A stream cut anywhere decodes as its first part continued by its second part. */
  lemma {:induction false} RunSplit(lim: Limits, m: Machine, a: seq<byte>, b: seq<byte>)
    requires Valid(m)
    ensures var t := Run(lim, m, a);
            Run(lim, m, a + b) ==
            if t.verdict.NeedMore? then Then(t, Run(lim, t.m, b)) else t
    decreases |a|
  {
    if m.state.End? {
    } else if a == [] {
      assert a + b == b;
    } else {
      assert (a + b)[1..] == a[1..] + b;
      var s := StepByte(lim, m, a[0]);
      if s.Next? {
        RunSplit(lim, s.m, a[1..], b);
        var t := Run(lim, s.m, a[1..]);
        if t.verdict.NeedMore? {
          var e := Emits(m, a[0]);
          assert e + (t.data + Run(lim, t.m, b).data) == (e + t.data) + Run(lim, t.m, b).data;
        }
      }
    }
  }
}
