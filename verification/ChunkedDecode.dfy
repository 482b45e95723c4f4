/**
 The incremental response body decoder of HTTP/1, and what it yields over every fragmentation.
 */
module ChunkedDecode {
  import opened Bytes
  import opened ChunkedSpec
  import ChunkedGrammar
  import opened M = MemRead

  datatype DecodeError = Io | UnexpectedEof | IncompleteBody | Malformed(fault: Fault)

  /** The result of one `decode` call. */
  datatype Polled =
    | Pending
    | Data(bytes: seq<byte>)
    | Trailers(block: seq<byte>, count: nat)
    | Err(error: DecodeError)

  datatype Kind = Length | Chunked | Eof

  /**
   What a poll that took `took` off the stream and left the machine at `m1` may return:
   exactly what `Run` says of those bytes, with end of file reported by the state it hit.
   */
  ghost predicate Decoded(lim: Limits, m0: Machine, took: seq<byte>, eof: bool, m1: Machine, out: Polled)
    requires Valid(m0)
  {
    var t := Run(lim, m0, took);
    t.used == |took| &&
    match out
    case Pending => t == Trace(m1, [], |took|, NeedMore)
    case Data(b) =>
      if b == [] then t == Trace(m1, [], |took|, Done) && m1.trailers.None?
      else t == Trace(m1, b, |took|, NeedMore)
    case Trailers(block, count) =>
      && t == Trace(m1.(trailers := Some(block)), [], |took|, Done)
      && m1.trailers.None? && count == m1.trailerCount
    case Err(Malformed(f)) => t == Trace(m1, [], |took|, Failed(f))
    case Err(Io) => t == Trace(m1, [], |took|, NeedMore)
    case Err(UnexpectedEof) => eof && t == Trace(m1, [], |took|, NeedMore) && !m1.state.Body?
    case Err(IncompleteBody) => eof && t.data == [] && t.verdict.NeedMore? && t.m.state.Body?
  }

  predicate AtEof(out: Polled) {
    out == Err(UnexpectedEof) || out == Err(IncompleteBody)
  }

  /**
   What a poll that took `n` bytes did with the transport's answers: Pending means they ran out
   or the last one blocked, an I/O error that the last one broke, and every answer that
   returned bytes is among those taken, unless the end of file was hit.
   */
  ghost predicate Used(turns: seq<Turn>, later: seq<Turn>, n: nat, out: Polled) {
    && Left(turns, later)
    && (out.Pending? ==> Stalled(turns, later))
    && (out == Err(Io) ==> |later| < |turns| && LastUsed(turns, later).Broken?)
    && (!AtEof(out) ==> Uptos(turns) <= Uptos(later) + n)
    && (n > 0 ==> |later| < |turns|)
  }

  /** The same between two reads of a poll. */
  ghost predicate Going(turns: seq<Turn>, later: seq<Turn>, n: nat) {
    Left(turns, later) && Uptos(turns) <= Uptos(later) + n && (n > 0 ==> |later| < |turns|)
  }

  /** One more read, answered by the first of the turns left. */
  lemma OneTurn(turns: seq<Turn>, was: seq<Turn>, n: nat, k: nat, out: Polled)
    requires Going(turns, was, n)
    requires out.Pending? <==> was == [] || was[0].Blocked?
    requires out == Err(Io) <==> was != [] && was[0].Broken?
    requires var now := if was == [] then [] else was[1..];
             (!AtEof(out) ==> Uptos(was) <= Uptos(now) + k) && (k > 0 ==> was != [])
    ensures var now := if was == [] then [] else was[1..];
            Used(turns, now, n + k, out) && (!out.Err? ==> Going(turns, now, n + k))
  {
    hide Uptos;
    if was != [] {
      LeftNext(turns, was);
    }
  }

  /** One more poll after others. */
  lemma OnePoll(turns: seq<Turn>, was: seq<Turn>, n: nat, now: seq<Turn>, k: nat, out: Polled)
    requires Going(turns, was, n) && Used(was, now, k, out)
    ensures Used(turns, now, n + k, out) && (!AtEof(out) ==> Going(turns, now, n + k))
    ensures k > 0 || (out.Pending? && now != []) ==> |now| < |was|
  {
    hide Uptos;
    LeftThen(turns, was, now);
  }

  lemma NoneUsed(turns: seq<Turn>)
    ensures Going(turns, turns, 0)
  {
    LeftAll(turns);
  }

  lemma AtTheEnd(turns: seq<Turn>, later: seq<Turn>, n: nat, out: Polled)
    requires Going(turns, later, n) && (out.Data? || out.Trailers?)
    ensures Used(turns, later, n, out)
  {
  }

  /** A poll that did not settle, with the turns used up and none broken, took a byte for each. */
  lemma Starved(turns: seq<Turn>, later: seq<Turn>, n: nat, out: Polled)
    requires Used(turns, later, n, out) && NoneBroken(turns)
    requires out == Err(Io) || (out.Pending? && later == [])
    ensures Uptos(turns) <= n
  {
  }

  /** The trailer limits, configured or default. */
  function LimitsOf(maxHeaders: Option<nat>, maxHeaderSize: Option<nat>): Limits {
    Limits(if maxHeaders.Some? then maxHeaders.value else DEFAULT_MAX_HEADERS,
           if maxHeaderSize.Some? then maxHeaderSize.value else TRAILER_LIMIT)
  }

  class Decoder {
    const kind: Kind
    const limits: Limits
    /** Content-Length bytes still expected. */
    var remaining: nat
    var seenEof: bool
    var state: State
    var chunkLen: nat
    var extensions: nat
    var trailers: Option<seq<byte>>
    var trailerCount: nat

    constructor (kind: Kind, length: nat, maxHeaders: Option<nat>, maxHeaderSize: Option<nat>)
      ensures this.kind == kind && remaining == length && !seenEof && View() == INIT
      ensures limits == LimitsOf(maxHeaders, maxHeaderSize)
    {
      this.kind := kind;
      limits := LimitsOf(maxHeaders, maxHeaderSize);
      remaining, seenEof := length, false;
      state, chunkLen, extensions, trailers, trailerCount := Start, 0, 0, None, 0;
    }

    ghost function View(): Machine
      reads this
    {
      Machine(state, chunkLen, extensions, trailers, trailerCount)
    }

    ghost predicate Ok()
      reads this
    {
      Valid(View()) && (state.End? ==> trailers.None?)
    }

    method Store(m: Machine)
      modifies this
      ensures View() == m && remaining == old(remaining) && seenEof == old(seenEof)
    {
      state, chunkLen, extensions := m.state, m.chunkLen, m.extensions;
      trailers, trailerCount := m.trailers, m.trailerCount;
    }

    /** One machine step: a body slice in `Body`, a single byte anywhere else. */
    method Step(rdr: M.Reader) returns (out: Polled, ghost took: seq<byte>)
      requires Ok() && !state.End?
      modifies this, rdr
      ensures old(rdr.rest) == took + rdr.rest
      ensures rdr.turns == if old(rdr.turns) == [] then [] else old(rdr.turns)[1..]
      ensures out.Pending? <==> old(rdr.turns) == [] || old(rdr.turns)[0].Blocked?
      ensures out == Err(Io) <==> old(rdr.turns) != [] && old(rdr.turns)[0].Broken?
      ensures !AtEof(out) ==> Uptos(old(rdr.turns)) <= Uptos(rdr.turns) + |took|
      ensures out.Err? ==> Decoded(limits, old(View()), took, rdr.rest == [], View(), out)
      ensures out.Pending? ==> took == [] && View() == old(View())
      ensures out.Data? ==>
                Valid(View()) && !(state.End? && out.bytes != []) &&
                Run(limits, old(View()), took) ==
                Trace(View(), out.bytes, |took|, if state.End? then Done else NeedMore)
      ensures !out.Trailers?
    {
      took := [];
      if state.Body? {
        var slice := rdr.ReadMem(chunkLen);
        match slice
        case Pending => out := Polled.Pending;
        case IoError => out := Err(Io);
        case Ready(b) =>
          if b == [] {
            chunkLen := 0;
            return Err(IncompleteBody), [];
          }
          took := b;
          ChunkedGrammar.RunBody(limits, View(), b);
          chunkLen := chunkLen - |b|;
          state := if chunkLen > 0 then Body else BodyCr;
          out := Data(b);
      } else {
        var one := rdr.ReadMem(1);
        match one
        case Pending => out := Polled.Pending;
        case IoError => out := Err(Io);
        case Ready(b) =>
          if b == [] {
            return Err(UnexpectedEof), [];
          }
          took := b;
          assert b == [b[0]] && b[1..] == [];
          var s := StepByte(limits, Machine(state, chunkLen, extensions, trailers, trailerCount), b[0]);
          match s
          case Bad(m, fault) =>
            // The state itself is not advanced on an error, only what the step stored.
            Store(m);
            out := Err(Malformed(fault));
          case Next(m) =>
            Store(m);
            out := Data([]);
      }
    }

    /** Steps the chunked machine until a frame, an error, the end or a blocked read. */
    method DecodeChunked(rdr: M.Reader) returns (out: Polled, ghost took: seq<byte>)
      requires Ok() && kind.Chunked?
      modifies this, rdr
      ensures old(rdr.rest) == took + rdr.rest
      ensures Decoded(limits, old(View()), took, rdr.rest == [], View(), out)
      ensures !out.Err? ==> Ok()
      // It answers Pending only when the transport did, and every other read took something.
      ensures Used(old(rdr.turns), rdr.turns, |took|, out)
    {
      hide Run, StepByte, Used, Going, Uptos;
      took := [];
      RunNothing(limits, View());
      ghost var turns := rdr.turns;
      assert Going(turns, turns, 0) by { NoneUsed(turns); }
      while !state.End?
        invariant Valid(View()) && (old(state.End?) ==> state.End? && trailers.None?)
        invariant old(rdr.rest) == took + rdr.rest
        invariant Run(limits, old(View()), took) ==
                  Trace(View(), [], |took|, if state.End? then Done else NeedMore)
        invariant Going(turns, rdr.turns, |took|)
        decreases |rdr.turns|
      {
        ghost var before, was := View(), rdr.turns;
        ghost var t;
        out, t := Step(rdr);
        OneTurn(turns, was, |took|, |t|, out);
        RunSplit(limits, old(View()), took, t);
        RunNothing(limits, before);
        took := took + t;
        match out
        case Data(b) =>
          assert [] + b == b;
          if b != [] {
            return;
          }
        case Pending => return;
        case Err(e) => return;
      }
      match trailers {
        case Some(block) =>
          out := Trailers(block, trailerCount);
          trailers := None;
        case None => out := Data([]);
      }
      AtTheEnd(turns, rdr.turns, |took|, out);
    }

    method Decode(rdr: M.Reader) returns (out: Polled, ghost took: seq<byte>)
      requires Ok()
      modifies this, rdr
      ensures old(rdr.rest) == took + rdr.rest
      ensures kind.Chunked? ==> Decoded(limits, old(View()), took, rdr.rest == [], View(), out)
      ensures kind.Chunked? && !out.Err? ==> Ok()
      // Whatever the kind, Pending and an I/O error are the transport's.
      ensures (kind.Eof? && seenEof) || Used(old(rdr.turns), rdr.turns, |took|, out)
      // A sized body hands on exactly what it counts and ends early only with an error.
      ensures kind.Length? ==> remaining + |took| == old(remaining) && Ok()
      ensures kind.Length? && out.Data? ==> out.bytes == took && (took == [] <==> old(remaining) == 0)
      ensures kind.Length? && !out.Data? ==> took == [] && old(remaining) > 0
      ensures kind.Length? && out == Err(IncompleteBody) ==> rdr.rest == []
      ensures kind.Length? ==> out.Pending? || out.Data? || out == Err(Io) || out == Err(IncompleteBody)
      // A close-delimited body ends exactly at end of file.
      ensures kind.Eof? && out.Data? ==> out.bytes == took && (seenEof <==> took == [])
      ensures kind.Eof? && out.Data? && took == [] ==> old(seenEof) || rdr.rest == []
      ensures kind.Eof? && !out.Data? ==> took == [] && seenEof == old(seenEof) == false
    {
      match kind {
        case Chunked => out, took := DecodeChunked(rdr);
        case Length => out, took := DecodeLength(rdr);
        case Eof => out, took := DecodeEof(rdr);
      }
    }

    method DecodeLength(rdr: M.Reader) returns (out: Polled, ghost took: seq<byte>)
      modifies this, rdr
      ensures old(rdr.rest) == took + rdr.rest && View() == old(View())
      ensures remaining + |took| == old(remaining) && seenEof == old(seenEof)
      ensures out.Data? ==> out.bytes == took && (took == [] <==> old(remaining) == 0)
      ensures !out.Data? ==> took == [] && old(remaining) > 0
      ensures out == Err(IncompleteBody) ==> rdr.rest == []
      ensures out.Pending? || out.Data? || out == Err(Io) || out == Err(IncompleteBody)
      ensures Used(old(rdr.turns), rdr.turns, |took|, out)
    {
      took := [];
      if remaining == 0 {
        return Data([]), [];
      }
      var r := rdr.ReadMem(remaining);
      match r
      case Pending => out := Polled.Pending;
      case IoError => out := Err(Io);
      case Ready(b) =>
        if b == [] {
          return Err(IncompleteBody), [];
        }
        took := b;
        remaining := remaining - |b|;
        out := Data(b);
    }

    method DecodeEof(rdr: M.Reader) returns (out: Polled, ghost took: seq<byte>)
      modifies this, rdr
      ensures old(rdr.rest) == took + rdr.rest && View() == old(View()) && remaining == old(remaining)
      ensures out.Data? ==> out.bytes == took && (seenEof <==> took == [])
      ensures out.Data? && took == [] ==> old(seenEof) || rdr.rest == []
      ensures !out.Data? ==> took == [] && seenEof == old(seenEof) == false
      ensures !seenEof ==> Used(old(rdr.turns), rdr.turns, |took|, out)
      ensures Left(old(rdr.turns), rdr.turns) && (out.Pending? ==> Stalled(old(rdr.turns), rdr.turns))
    {
      took := [];
      if seenEof {
        return Data([]), [];
      }
      var r := rdr.ReadMem(8192);
      match r
      case Pending => out := Polled.Pending;
      case IoError => out := Err(Io);
      case Ready(b) =>
        seenEof := b == [];
        took := b;
        out := Data(b);
    }
  }

  // ----- every history of polls -----

  datatype Poll = Poll(took: seq<byte>, eof: bool, out: Polled)

  /** A poll after which the connection polls the same body again. */
  predicate Continues(out: Polled) {
    out.Pending? || (out.Data? && out.bytes != [])
  }

  /** `hist` is a possible sequence of polls of a chunked decoder from `m0` to `m1`. */
  ghost predicate Polls(lim: Limits, m0: Machine, hist: seq<Poll>, m1: Machine)
    requires Valid(m0)
    decreases |hist|
  {
    if hist == [] then m0 == m1
    else if |hist| == 1 then Decoded(lim, m0, hist[0].took, hist[0].eof, m1, hist[0].out)
    else
      && Continues(hist[0].out)
      && exists m :: Valid(m) && Decoded(lim, m0, hist[0].took, hist[0].eof, m, hist[0].out)
                     && Polls(lim, m, hist[1..], m1)
  }

  function Took(hist: seq<Poll>): seq<byte> {
    if hist == [] then [] else hist[0].took + Took(hist[1..])
  }

  /** The body the application was given. */
  function Given(hist: seq<Poll>): seq<byte> {
    if hist == [] then [] else BytesOf(hist[0].out) + Given(hist[1..])
  }

  /** A poll that settled the body: its end, malformed input or end of file. */
  predicate Settled(out: Polled) {
    !Continues(out) && out != Err(Io)
  }

  /** The outcome the whole stream settles, from `Run` alone. */
  function Outcome(t: Trace): Polled {
    match t.verdict
    case Failed(f) => Err(Malformed(f))
    case Done =>
      if t.m.trailers.Some? then Trailers(t.m.trailers.value, t.m.trailerCount) else Data([])
    case NeedMore => Err(if t.m.state.Body? then IncompleteBody else UnexpectedEof)
  }

  function BytesOf(out: Polled): seq<byte> {
    if out.Data? then out.bytes else []
  }

  lemma FirstPoll(lim: Limits, m0: Machine, p: Poll, m: Machine)
    requires Valid(m0) && Decoded(lim, m0, p.took, p.eof, m, p.out) && Continues(p.out)
    ensures Run(lim, m0, p.took) == Trace(m, BytesOf(p.out), |p.took|, NeedMore)
  {
    hide Run;
  }

  lemma LastPoll(lim: Limits, m0: Machine, p: Poll, m: Machine)
    requires Valid(m0) && Decoded(lim, m0, p.took, p.eof, m, p.out) && Settled(p.out)
    ensures var t := Run(lim, m0, p.took);
            && t.used == |p.took| && t.data == BytesOf(p.out) && p.out == Outcome(t)
            && (AtEof(p.out) <==> t.verdict.NeedMore?)
  {
    hide Run;
  }

  /** Any settled history agrees with one pass over the bytes it took. */
  lemma {:induction false} PollsRun(lim: Limits, m0: Machine, hist: seq<Poll>, m1: Machine)
    requires Valid(m0) && hist != [] && Polls(lim, m0, hist, m1)
    requires Settled(hist[|hist| - 1].out)
    ensures var t := Run(lim, m0, Took(hist));
            && t.used == |Took(hist)| && t.data == Given(hist)
            && hist[|hist| - 1].out == Outcome(t)
    ensures AtEof(hist[|hist| - 1].out) == Run(lim, m0, Took(hist)).verdict.NeedMore?
    decreases |hist|
  {
    hide Run, Decoded, Outcome;
    if |hist| == 1 {
      assert hist[1..] == [] && Took(hist) == hist[0].took && Given(hist) == BytesOf(hist[0].out);
      LastPoll(lim, m0, hist[0], m1);
    } else {
      var m :| Valid(m) && Decoded(lim, m0, hist[0].took, hist[0].eof, m, hist[0].out)
               && Polls(lim, m, hist[1..], m1);
      FirstPoll(lim, m0, hist[0], m);
      PollsRun(lim, m, hist[1..], m1);
      RunSplit(lim, m0, hist[0].took, Took(hist[1..]));
      SameOutcome(Run(lim, m, Took(hist[1..])), Run(lim, m0, Took(hist)));
    }
  }

  lemma SameOutcome(a: Trace, b: Trace)
    requires a.m == b.m && a.verdict == b.verdict
    ensures Outcome(a) == Outcome(b)
  {
  }

  /**
   Fragmentation independence: two readers of one stream, however it is cut and however often
   either one blocks, hand on the same body and the same outcome after the same bytes.
   */
  lemma SameStreamSameBody(lim: Limits, h1: seq<Poll>, e1: Machine, rest1: seq<byte>,
                           h2: seq<Poll>, e2: Machine, rest2: seq<byte>)
    requires h1 != [] && h2 != [] && Polls(lim, INIT, h1, e1) && Polls(lim, INIT, h2, e2)
    requires Settled(h1[|h1| - 1].out) && Settled(h2[|h2| - 1].out)
    requires AtEof(h1[|h1| - 1].out) ==> rest1 == []
    requires AtEof(h2[|h2| - 1].out) ==> rest2 == []
    requires Took(h1) + rest1 == Took(h2) + rest2
    ensures Given(h1) == Given(h2) && Took(h1) == Took(h2)
    ensures h1[|h1| - 1].out == h2[|h2| - 1].out
  {
    WholeStream(lim, h1, e1, rest1);
    WholeStream(lim, h2, e2, rest2);
    var s := Took(h1) + rest1;
    assert Took(h1) == s[..|Took(h1)|] && Took(h2) == s[..|Took(h2)|];
  }

  /** A settled history is determined by the whole stream, read or not. */
  lemma WholeStream(lim: Limits, h: seq<Poll>, e: Machine, rest: seq<byte>)
    requires h != [] && Polls(lim, INIT, h, e) && Settled(h[|h| - 1].out)
    requires AtEof(h[|h| - 1].out) ==> rest == []
    ensures var t := Run(lim, INIT, Took(h) + rest);
            t.used == |Took(h)| && Given(h) == t.data && h[|h| - 1].out == Outcome(t)
  {
    hide Run, Polls;
    PollsRun(lim, INIT, h, e);
    RunSplit(lim, INIT, Took(h), rest);
    if AtEof(h[|h| - 1].out) {
      assert Took(h) + rest == Took(h);
    }
  }

  // ----- reading a whole body -----

  /** One more poll of a body of which `took` was read so far, with `rest` still to come. */
  lemma PollRuns(lim: Limits, took: seq<byte>, body: seq<byte>, m: Machine, t: seq<byte>, m1: Machine,
                 out: Polled, rest: seq<byte>)
    requires Valid(m) && Run(lim, INIT, took) == Trace(m, body, |took|, NeedMore)
    requires Decoded(lim, m, t, rest == [], m1, out)
    ensures Continues(out) ==> Run(lim, INIT, took + t) == Trace(m1, body + BytesOf(out), |took + t|, NeedMore)
    ensures out.Data? && out.bytes != [] ==> t != []
    ensures var w := Run(lim, INIT, took + t + rest);
            if Settled(out) then w.data == body + BytesOf(out) && w.used == |took + t| && Outcome(w) == out
            else body + BytesOf(out) <= w.data && |took + t| <= w.used
  {
    hide Run, StepByte;
    RunNothing(lim, m);
    RunSplit(lim, INIT, took, t);
    RunSplit(lim, INIT, took + t, rest);
    assert body + [] == body;
    if rest == [] {
      assert took + t + rest == took + t;
    }
  }

  /**
   Polls a chunked decoder until its body is settled or the transport stops answering. Once
   settled, it has handed on what one run over the stream says and left the rest unread; and
   it does settle when no read breaks and more reads return bytes than that run uses.
   */
  method ReadBody(stream: seq<byte>, turns: seq<Turn>, maxHeaders: Option<nat>, maxHeaderSize: Option<nat>)
    returns (body: seq<byte>, last: Polled, unread: seq<byte>)
    ensures var t := Run(LimitsOf(maxHeaders, maxHeaderSize), INIT, stream);
            && (Settled(last) ==> body == t.data && last == Outcome(t) && unread == stream[t.used..])
            && (!Settled(last) ==> body <= t.data)
            && (NoneBroken(turns) && Uptos(turns) > t.used ==> Settled(last))
  {
    hide Run, StepByte, Used, Going, Uptos, Decoded, Outcome, NoneBroken, LimitsOf;
    var lim := LimitsOf(maxHeaders, maxHeaderSize);
    var dec := new Decoder(Chunked, 0, maxHeaders, maxHeaderSize);
    var rdr := new M.Reader(stream, turns);
    ghost var took: seq<byte> := [];
    body := [];
    RunNothing(lim, INIT);
    NoneUsed(turns);
    while true
      invariant fresh(dec) && fresh(rdr) && dec.Ok() && dec.kind.Chunked? && dec.limits == lim
      invariant stream == took + rdr.rest && Going(turns, rdr.turns, |took|)
      invariant Run(lim, INIT, took) == Trace(dec.View(), body, |took|, NeedMore)
      decreases |rdr.turns|
    {
      ghost var m, was := dec.View(), rdr.turns;
      ghost var t;
      last, t := dec.Decode(rdr);
      OnePoll(turns, was, |took|, rdr.turns, |t|, last);
      PollRuns(lim, took, body, m, t, dec.View(), last, rdr.rest);
      assert stream == took + t + rdr.rest;
      took := took + t;
      body := body + BytesOf(last);
      if !Continues(last) || (last.Pending? && rdr.turns == []) {
        if !Settled(last) && NoneBroken(turns) {
          Starved(turns, rdr.turns, |took|, last);
        }
        break;
      }
    }
    unread := rdr.rest;
    assert unread == stream[|took|..];
  }
}
