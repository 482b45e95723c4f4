/**
 A MASQUE UDP tunnel over its request stream: the sender's capsule buffer and close, and the
 receiver that turns capsules back into UDP payloads.
 */
module UdpTunnel {
  import opened Bytes
  import opened Capsules
  import M = MemRead

  const WRITE_LIMIT: nat := 64 * 1024
  const READ_CHUNK: nat := 8 * 1024
  const ROUNDS: nat := 32

  // ----- sending -----

  /** How the request stream answers a write, flush or shutdown. */
  datatype Answer = NotYet | Took(n: nat) | Broke

  datatype Sent = Accepted | TooLarge | Full | Closed

  datatype Poll = Pending | Done | Failed

  predicate AllFit(ps: seq<seq<byte>>) {
    forall p | p in ps :: |p| <= MAX_UDP_PAYLOAD
  }

  lemma {:induction false} WirePush(ps: seq<seq<byte>>, p: seq<byte>)
    requires AllFit(ps) && |p| <= MAX_UDP_PAYLOAD
    ensures AllFit(ps + [p]) && Wire(ps + [p]) == Wire(ps) + Encoded(p)
  {
    assert AllFit(ps + [p]);
    hide Encoded;
    if ps == [] {
      assert ps + [p] == [p] && [p][1..] == [];
      assert Wire([p]) == Encoded(p) + [];
    } else {
      assert (ps + [p])[1..] == ps[1..] + [p];
      WirePush(ps[1..], p);
      assert Encoded(ps[0]) + (Wire(ps[1..]) + Encoded(p)) == Encoded(ps[0]) + Wire(ps[1..]) + Encoded(p);
    }
  }

  class UdpSender {
    /** What the request stream took, and whether its FIN was submitted. */
    var control: seq<byte>
    var fin: bool
    var writeBuf: seq<byte>
    var unflushed: bool
    var closing: bool
    var writeClosed: bool
    var writeError: bool
    var answers: seq<Answer>
    /** The payloads framed into the buffer so far. */
    ghost var framed: seq<seq<byte>>

    constructor (answers: seq<Answer>)
      ensures Valid() && framed == [] && !closing && !writeClosed && this.answers == answers
    {
      control, fin, writeBuf, unflushed := [], false, [], false;
      closing, writeClosed, writeError := false, false, false;
      this.answers, framed := answers, [];
    }

    /** Written and buffered bytes are the capsules framed, until a close or an error. */
    ghost predicate Valid()
      reads this
    {
      && AllFit(framed)
      && control <= Wire(framed)
      && (!writeClosed ==> !fin && control + writeBuf == Wire(framed))
      && (fin ==> closing && writeClosed && control == Wire(framed))
      && (writeError ==> writeClosed)
    }

    method NextAnswer() returns (a: Answer)
      modifies this`answers
      ensures answers == if old(answers) == [] then [] else old(answers)[1..]
      ensures old(answers) == [] ==> a.NotYet?
      ensures old(answers) != [] ==> a == old(answers)[0]
    {
      if answers == [] {
        return Answer.NotYet;
      }
      a := answers[0];
      answers := answers[1..];
    }

    /** Writes the buffered capsules, then flushes what was written. */
    method PollWriteBuf() returns (ready: bool)
      requires Valid()
      modifies this
      ensures Valid() && framed == old(framed) && closing == old(closing) && fin == old(fin)
      ensures old(control) <= control
      ensures ready && !writeClosed ==> writeBuf == []
      ensures !ready ==> answers == [] || LastWas(old(answers), answers, Answer.NotYet)
      ensures !old(writeClosed) ==> writeError == writeClosed
      ensures old(writeClosed) ==> ready && writeClosed && control == old(control) && writeError == old(writeError)
    {
      hide Wire, AllFit, Encoded;
      if writeClosed {
        return true;
      }
      LeftAll(answers);
      var ok := true;
      while writeBuf != []
        invariant Valid() && framed == old(framed) && closing == old(closing) && fin == old(fin)
        invariant !writeClosed && old(control) <= control && ok
        invariant Left(old(answers), answers)
        decreases |answers|
      {
        if answers == [] {
          return false;
        }
        LeftNext(old(answers), answers);
        var a := NextAnswer();
        match a {
          case NotYet => return false;
          case Broke => ok := false; break;
          case Took(n) =>
            var k := Min(n, |writeBuf|);
            if k == 0 {
              ok := false;
              break;
            }
            assert control + writeBuf == control + writeBuf[..k] + writeBuf[k..];
            control := control + writeBuf[..k];
            writeBuf := writeBuf[k..];
            unflushed := true;
        }
      }
      if ok && unflushed {
        if answers != [] {
          LeftNext(old(answers), answers);
        }
        var a := NextAnswer();
        if a.NotYet? {
          return false;
        }
        unflushed := false;
        ok := !a.Broke?;
      }
      if !ok {
        writeError, writeClosed, writeBuf := true, true, [];
      }
      ready := true;
    }

    /** Frames one payload; refused once closing, over size, over the buffer limit or broken. */
    method TrySend(payload: seq<byte>) returns (r: Sent)
      requires Valid()
      modifies this
      ensures Valid() && closing == old(closing) && fin == old(fin) && old(control) <= control
      ensures r.Accepted? ==> framed == old(framed) + [payload] && !closing
      ensures r.TooLarge? || r.Full? ==> framed == old(framed) && control == old(control)
      ensures r.TooLarge? <==> !closing && |payload| > MAX_UDP_PAYLOAD
      ensures r.Closed? ==> closing || writeClosed
      ensures old(closing) || old(writeClosed) ==> framed == old(framed) && control == old(control)
    {
      if closing {
        return Closed;
      }
      if |payload| > MAX_UDP_PAYLOAD {
        return TooLarge;
      }
      if writeClosed {
        return Closed;
      }
      if |writeBuf| >= WRITE_LIMIT {
        return Full;
      }
      ghost var before := writeBuf;
      writeBuf := EncodeDatagram(payload, writeBuf);
      WirePush(framed, payload);
      framed := framed + [payload];
      assert control + writeBuf == control + before + Encoded(payload);
      var _ := PollWriteBuf();
      r := if writeClosed then Closed else Accepted;
    }

    /** Writes what is buffered, then submits the FIN; closing accepts no further payload. */
    method PollClose() returns (r: Poll)
      requires Valid()
      modifies this
      ensures Valid() && closing && framed == old(framed) && old(control) <= control
      ensures r.Done? && !old(writeClosed) ==> fin && control == Wire(framed)
      ensures r.Failed? ==> writeClosed
    {
      hide Wire, AllFit, Encoded;
      closing := true;
      var ready := PollWriteBuf();
      if !ready {
        return Pending;
      }
      if !writeClosed {
        var a := NextAnswer();
        if a.NotYet? {
          return Pending;
        }
        assert control + [] == control;
        writeClosed := true;
        writeError := a.Broke?;
        fin := !writeError;
      }
      r := if writeError then Failed else Done;
      writeError := false;
    }
  }

  // ----- receiving -----

  /** What a whole stream amounts to: its payloads, and whether it ends well. */
  datatype Report = Report(payloads: seq<seq<byte>>, ok: bool)

  function Judge(r: Reading): Report
    decreases |r.values|
  {
    if r.values == [] then Report([], r.ending == Clean)
    else
      var rest := r.(values := r.values[1..]);
      match UdpPayload(r.values[0])
      case Dropped => Judge(rest)
      case Oversized => Report([], false)
      case Payload(p) =>
        var j := Judge(rest);
        Report([p] + j.payloads, j.ok)
  }

  datatype Received = Waiting | Got(payload: seq<byte>) | Over | Refused | IoFailed

  /** How one poll of the HTTP Datagrams is answered. */
  datatype Arrival = NotYet | Arrives(datagram: seq<byte>) | NoMore

  /** The datagrams that will arrive before the native side ends. */
  function Coming(arrivals: seq<Arrival>): seq<seq<byte>> {
    if arrivals == [] || arrivals[0].NoMore? then []
    else (if arrivals[0].Arrives? then [arrivals[0].datagram] else []) + Coming(arrivals[1..])
  }

  function Native(open: bool, arrivals: seq<Arrival>): Report {
    if open then Judge(Reading(Coming(arrivals), Clean)) else Report([], true)
  }

  function Before(p: seq<byte>, r: Report): Report {
    Report([p] + r.payloads, r.ok)
  }

  /** The stream had nothing to return when it was asked. */
  ghost predicate Silent(turns: seq<M.Turn>, later: seq<M.Turn>) {
    Left(turns, later) && (later == [] || exists i | 0 <= i < |turns| - |later| :: turns[i].Blocked?)
  }

  lemma StaysSilent(turns: seq<M.Turn>, was: seq<M.Turn>, now: seq<M.Turn>)
    requires Silent(turns, was) && Left(was, now)
    ensures Silent(turns, now)
  {
    LeftThen(turns, was, now);
  }

  lemma JustSilent(turns: seq<M.Turn>, was: seq<M.Turn>, now: seq<M.Turn>)
    requires Left(turns, was) && now == (if was == [] then [] else was[1..]) && (was == [] || was[0].Blocked?)
    ensures Silent(turns, now)
  {
    if was != [] {
      LeftNext(turns, was);
    }
  }

  /** Every read that returned something took at least a byte. */
  predicate Moved(turns: seq<M.Turn>, rest: seq<byte>, turns': seq<M.Turn>, rest': seq<byte>) {
    M.Uptos(turns) + |rest'| <= M.Uptos(turns') + |rest|
  }

  lemma Unmoved(turns: seq<M.Turn>, rest: seq<byte>)
    ensures Moved(turns, rest, turns, rest)
  {
  }

  lemma MovedThen(a: seq<M.Turn>, r: seq<byte>, b: seq<M.Turn>, s: seq<byte>, c: seq<M.Turn>, t: seq<byte>)
    requires Moved(a, r, b, s) && Moved(b, s, c, t)
    ensures Moved(a, r, c, t)
  {
  }

  class UdpReceiver {
    const io: M.Reader
    const decoder: Decoder
    var readBuf: seq<byte>
    /** Why receiving failed, reported again by every later poll. */
    var error: Option<Received>
    /** Whether HTTP Datagrams can still arrive, and how their polls are answered. */
    var nativeOpen: bool
    var arrivals: seq<Arrival>
    /** Whether the next poll asks the stream before the datagrams. */
    var streamFirst: bool

    constructor (io: M.Reader, native: Option<seq<Arrival>>)
      ensures this.io == io && fresh(decoder) && decoder.skip == 0 && readBuf == [] && error == None
      ensures nativeOpen == native.Some? && arrivals == (if native.Some? then native.value else []) && !streamFirst
    {
      this.io := io;
      decoder := new Decoder();
      readBuf, error, streamFirst := [], None, false;
      nativeOpen := native.Some?;
      arrivals := if native.Some? then native.value else [];
    }

    /** What the stream still holds, if it is read to its end. */
    ghost function Future(): Report
      reads this, io, decoder
    {
      Judge(BatchAfter(decoder.skip, readBuf + io.rest))
    }

    /** What the datagrams still hold, if they are polled to their end. */
    ghost function Datagrams(): Report
      reads this
    {
      Native(nativeOpen, arrivals)
    }

    /** What a poll can still use up. */
    ghost function Work(): nat
      reads this, io
    {
      |arrivals| + |io.turns| + |readBuf| + |io.rest|
    }

    /**
     One payload, the end or an error: exactly what one of the two sources holds next, leaving
     the other as it was. The sources take turns to be asked first; datagrams overtake the
     stream in its turn only when it had nothing to return.
     */
    method PollRecv() returns (r: Received)
      modifies this, io, decoder
      ensures old(error).Some? ==>
                && r == old(error).value && error == old(error)
                && Future() == old(Future()) && Datagrams() == old(Datagrams())
      ensures old(error).None? && r.Waiting? ==> Future() == old(Future()) && Datagrams() == old(Datagrams())
      ensures old(error).None? && r.Got? ==>
                || (old(Future()) == Before(r.payload, Future()) && Datagrams() == old(Datagrams()))
                || (old(Datagrams()) == Before(r.payload, Datagrams()) && Future() == old(Future()))
      ensures old(error).None? && r.Over? ==> old(Future()) == Report([], true)
      ensures old(error).None? && r.Refused? ==>
                old(Future()) == Report([], false) || old(Datagrams()) == Report([], false)
      ensures old(error).None? ==> error == if r.Refused? || r.IoFailed? then Some(r) else None
      ensures old(error).None? && (r.Waiting? || r.Got?) ==> Moved(old(io.turns), old(io.rest), io.turns, io.rest)
      ensures old(error).None? && (r.Waiting? || r.Got?) && old(io.turns) != [] ==> Work() < old(Work())
      ensures old(error).None? && M.NoneBroken(old(io.turns)) ==> !r.IoFailed? && M.NoneBroken(io.turns)
      ensures old(error).None? ==> streamFirst == !old(streamFirst)
      ensures old(error).None? && old(streamFirst) && Datagrams() != old(Datagrams()) ==>
                Silent(old(io.turns), io.turns)
    {
      hide Judge, BatchAfter, Native, Silent, Moved;
      if error.Some? {
        return error.value;
      }
      r := PollPayload();
      if r.Refused? || r.IoFailed? {
        error := Some(r);
      }
    }

    method PollPayload() returns (r: Received)
      modifies this, io, decoder
      ensures error == old(error) && streamFirst == !old(streamFirst)
      ensures r.Waiting? ==> Future() == old(Future()) && Datagrams() == old(Datagrams())
      ensures r.Got? ==>
                || (old(Future()) == Before(r.payload, Future()) && Datagrams() == old(Datagrams()))
                || (old(Datagrams()) == Before(r.payload, Datagrams()) && Future() == old(Future()))
      ensures r.Over? ==> old(Future()) == Report([], true)
      ensures r.Refused? ==> old(Future()) == Report([], false) || old(Datagrams()) == Report([], false)
      ensures old(streamFirst) && Datagrams() != old(Datagrams()) ==> Silent(old(io.turns), io.turns)
      ensures r.Waiting? || r.Got? ==> Moved(old(io.turns), old(io.rest), io.turns, io.rest)
      ensures (r.Waiting? || r.Got?) && old(io.turns) != [] ==> Work() < old(Work())
      ensures M.NoneBroken(old(io.turns)) ==> !r.IoFailed? && M.NoneBroken(io.turns)
    {
      hide Judge, BatchAfter, Decoded, UdpPayload, Native, Silent, Before, Left, Moved, M.NoneBroken;
      var first := streamFirst;
      streamFirst := !streamFirst;
      assert Left(io.turns, io.turns) by { NothingUsed(io.turns); }
      Unmoved(io.turns, io.rest);
      for i := 0 to ROUNDS
        invariant error == old(error) && streamFirst == !old(streamFirst)
        invariant Future() == old(Future()) && Datagrams() == old(Datagrams())
        invariant Left(old(io.turns), io.turns)
        invariant old(streamFirst) && !first ==> Silent(old(io.turns), io.turns)
        invariant Moved(old(io.turns), old(io.rest), io.turns, io.rest)
        invariant i == 0 ==> io.turns == old(io.turns)
        invariant Work() <= old(Work()) && (i > 0 && old(io.turns) != [] ==> Work() < old(Work()))
        invariant M.NoneBroken(old(io.turns)) ==> M.NoneBroken(io.turns)
      {
        ghost var was, rest, asked := io.turns, io.rest, first;
        var next;
        next, first := Round(first);
        if next.None? || next.value.Waiting? || next.value.Got? {
          MovedThen(old(io.turns), old(io.rest), was, rest, io.turns, io.rest);
        }
        LeftThen(old(io.turns), was, io.turns);
        if old(streamFirst) && !asked {
          StaysSilent(old(io.turns), was, io.turns);
        }
        if old(streamFirst) && asked && !first {
          JustSilent(old(io.turns), was, io.turns);
        }
        if next.Some? {
          return next.value;
        }
      }
      r := Waiting;
    }

    /** One round: poll the datagrams unless it is the stream's turn, then decode or read. */
    method Round(first: bool) returns (r: Option<Received>, later: bool)
      modifies this, io, decoder
      ensures error == old(error) && streamFirst == old(streamFirst) && Left(old(io.turns), io.turns)
      ensures r.None? || r.value.Waiting? ==> Future() == old(Future()) && Datagrams() == old(Datagrams())
      ensures r.Some? && r.value.Got? ==>
                || (old(Future()) == Before(r.value.payload, Future()) && Datagrams() == old(Datagrams()))
                || (old(Datagrams()) == Before(r.value.payload, Datagrams()) && Future() == old(Future()))
      ensures r.Some? && r.value.Over? ==> old(Future()) == Report([], true)
      ensures r.Some? && r.value.Refused? ==>
                old(Future()) == Report([], false) || old(Datagrams()) == Report([], false)
      ensures r.None? || r.value.Waiting? || r.value.Got? ==>
                && Moved(old(io.turns), old(io.rest), io.turns, io.rest)
                && Work() <= old(Work()) && (old(io.turns) != [] ==> Work() < old(Work()))
      ensures M.NoneBroken(old(io.turns)) ==> r != Some(IoFailed) && M.NoneBroken(io.turns)
      ensures first ==> Datagrams() == old(Datagrams())
      ensures later ==> first
      ensures first && !later ==>
                io.turns == (if old(io.turns) == [] then [] else old(io.turns)[1..]) &&
                (old(io.turns) == [] || old(io.turns)[0].Blocked?)
    {
      hide Judge, BatchAfter, Native, Before, Moved, M.NoneBroken;
      Unmoved(io.turns, io.rest);
      later := first;
      if !first && nativeOpen {
        var next, over := AskNative();
        if over {
          assert Left(io.turns, io.turns) by { NothingUsed(io.turns); }
          return next, later;
        }
      }
      r := StreamRound();
      if r == Some(Waiting) && first {
        r, later := None, false;
      }
    }

    /** One poll of the datagrams; `over` says the round ends with it. */
    method AskNative() returns (r: Option<Received>, over: bool)
      requires nativeOpen
      modifies this`arrivals, this`nativeOpen
      ensures Future() == old(Future()) && (!over ==> r.None?)
      ensures |arrivals| <= |old(arrivals)| && (over ==> |arrivals| < |old(arrivals)|)
      ensures r.None? ==> Datagrams() == old(Datagrams())
      ensures r.Some? ==> r.value.Got? || r.value.Refused?
      ensures r.Some? && r.value.Got? ==> old(Datagrams()) == Before(r.value.payload, Datagrams())
      ensures r.Some? && r.value.Refused? ==> old(Datagrams()) == Report([], false)
    {
      hide UdpPayload, BatchAfter;
      if arrivals == [] {
        return None, false;
      }
      var a := arrivals[0];
      arrivals := arrivals[1..];
      match a {
        case NotYet =>
          assert [] + Coming(arrivals) == Coming(arrivals);
          r, over := None, false;
        case NoMore =>
          nativeOpen := false;
          r, over := None, false;
        case Arrives(d) =>
          assert ([d] + Coming(arrivals))[1..] == Coming(arrivals);
          over := true;
          match UdpPayload(d)
          case Dropped => r := None;
          case Oversized => r := Some(Refused);
          case Payload(p) => r := Some(Got(p));
      }
    }

    /** Decodes a capsule, or reads once. */
    method StreamRound() returns (r: Option<Received>)
      modifies this`readBuf, io, decoder
      ensures Left(old(io.turns), io.turns)
      ensures r.None? || r.value.Waiting? ==> Future() == old(Future())
      ensures r.Some? && r.value.Got? ==> old(Future()) == Before(r.value.payload, Future())
      ensures r.Some? && r.value.Over? ==> old(Future()) == Report([], true)
      ensures r.Some? && r.value.Refused? ==> old(Future()) == Report([], false)
      ensures r.None? || r.value.Waiting? || r.value.Got? ==>
                && Moved(old(io.turns), old(io.rest), io.turns, io.rest)
                && Work() <= old(Work()) && (old(io.turns) != [] ==> Work() < old(Work()))
      ensures M.NoneBroken(old(io.turns)) ==> r != Some(IoFailed) && M.NoneBroken(io.turns)
      ensures r == Some(Waiting) ==>
                io.turns == (if old(io.turns) == [] then [] else old(io.turns)[1..]) &&
                (old(io.turns) == [] || old(io.turns)[0].Blocked?)
    {
      hide Decoded, BatchAfter, UdpPayload;
      NothingUsed(io.turns);
      ghost var skip0, buf0 := decoder.skip, readBuf;
      DecodedReads(skip0, buf0, io.rest);
      NeedIsBounded(skip0, buf0);
      var result, rest := decoder.Decode(readBuf);
      readBuf := rest;
      ghost var future := BatchAfter(decoder.skip, readBuf + io.rest);
      match result {
        case Error => return Some(Refused);
        case Value(v) =>
          assert ([v] + future.values)[1..] == future.values;
          match UdpPayload(v) {
            case Dropped => return None;
            case Oversized => return Some(Refused);
            case Payload(p) => return Some(Got(p));
          }
        case Need =>
      }
      var read := io.ReadMem(READ_CHUNK);
      match read {
        case Pending => return Some(Waiting);
        case IoError => return Some(IoFailed);
        case Ready(bytes) =>
          if bytes == [] {
            assert readBuf + io.rest == readBuf;
            return Some(if decoder.IsPartial(readBuf) then Refused else Over);
          }
          assert readBuf + (bytes + io.rest) == readBuf + bytes + io.rest;
          readBuf := readBuf + bytes;
          r := None;
      }
    }
  }

  lemma NothingUsed(turns: seq<M.Turn>)
    ensures Left(turns, turns)
    ensures turns != [] ==> Left(turns, turns[1..])
  {
    assert turns[0..] == turns;
  }

  // ----- whole runs -----

  /** `ps` is `a` and `b` merged, each in its own order. */
  predicate Merged(ps: seq<seq<byte>>, a: seq<seq<byte>>, b: seq<seq<byte>>)
    decreases |ps|
  {
    if ps == [] then a == [] && b == []
    else
      var n := |ps| - 1;
      || (a != [] && a[|a| - 1] == ps[n] && Merged(ps[..n], a[..|a| - 1], b))
      || (b != [] && b[|b| - 1] == ps[n] && Merged(ps[..n], a, b[..|b| - 1]))
  }

  lemma MergedPush(ps: seq<seq<byte>>, a: seq<seq<byte>>, b: seq<seq<byte>>, p: seq<byte>)
    requires Merged(ps, a, b)
    ensures Merged(ps + [p], a + [p], b) && Merged(ps + [p], a, b + [p])
  {
    assert (ps + [p])[..|ps|] == ps && (a + [p])[..|a|] == a && (b + [p])[..|b|] == b;
  }

  lemma {:induction false} MergedAlone(ps: seq<seq<byte>>, a: seq<seq<byte>>)
    requires Merged(ps, a, [])
    ensures ps == a
    decreases |ps|
  {
    if ps != [] {
      MergedAlone(ps[..|ps| - 1], a[..|a| - 1]);
      assert ps == ps[..|ps| - 1] + [ps[|ps| - 1]] && a == a[..|a| - 1] + [a[|a| - 1]];
    }
  }

  /**
   Any number of polls, however the stream is cut and the datagrams arrive: the payloads
   received are the stream's and the datagrams' merged, each in order with none missing; the
   end comes only after the stream's last; and only a stream or a datagram that breaks the
   format is refused. It does come to an end when no read breaks, more reads return bytes than
   the stream has, and there are polls enough.
   */
  method ReceiveAll(stream: seq<byte>, turns: seq<M.Turn>, native: Option<seq<Arrival>>, polls: nat)
    returns (payloads: seq<seq<byte>>, last: Received, ghost a: seq<seq<byte>>, ghost b: seq<seq<byte>>)
    ensures var whole := Judge(Batch(stream));
            var datagrams := if native.Some? then Native(true, native.value) else Report([], true);
            && Merged(payloads, a, b) && a <= whole.payloads && b <= datagrams.payloads
            && (last.Over? ==> whole == Report(a, true))
            && (last.Refused? ==> whole == Report(a, false) || datagrams == Report(b, false))
            && (native.None? ==> payloads == a)
    ensures M.NoneBroken(turns) && M.Uptos(turns) > |stream| &&
            polls > |stream| + |turns| + (if native.Some? then |native.value| else 0) ==>
              last.Over? || last.Refused?
  {
    hide Judge, Batch, BatchAfter, Native, Merged, Moved, Silent, M.NoneBroken, M.Uptos, Left;
    Unmoved(turns, stream);
    var io := new M.Reader(stream, turns);
    var rx := new UdpReceiver(io, native);
    FromTheStart(stream);
    assert [] + stream == stream;
    payloads, last, a, b := [], Waiting, [], [];
    ghost var whole := Judge(Batch(stream));
    ghost var datagrams := if native.Some? then Native(true, native.value) else Report([], true);
    assert rx.Datagrams() == datagrams && Merged([], [], []) by { NoneMerged(); }
    for i := 0 to polls
      invariant fresh(rx) && fresh(rx.io) && fresh(rx.decoder) && rx.error.None?
      invariant last.Waiting? || last.Got?
      invariant whole == Report(a + rx.Future().payloads, rx.Future().ok)
      invariant datagrams == Report(b + rx.Datagrams().payloads, rx.Datagrams().ok)
      invariant Merged(payloads, a, b)
      invariant Moved(turns, stream, rx.io.turns, rx.io.rest)
      invariant M.NoneBroken(turns) ==> M.NoneBroken(rx.io.turns)
      invariant M.Uptos(turns) > |stream| ==>
                  rx.Work() + i <= |stream| + |turns| + (if native.Some? then |native.value| else 0)
    {
      ghost var was, rest := rx.io.turns, rx.io.rest;
      if M.Uptos(turns) > |stream| {
        StillAnswers(turns, stream, was, rest);
      }
      ghost var s, n := rx.Future(), rx.Datagrams();
      last := rx.PollRecv();
      if last.Waiting? || last.Got? {
        MovedThen(turns, stream, was, rest, rx.io.turns, rx.io.rest);
      }
      match last {
        case Waiting =>
        case Got(p) =>
          MergedPush(payloads, a, b, p);
          payloads := payloads + [p];
          if s == Before(p, rx.Future()) && rx.Datagrams() == n {
            Regroup(a, [p], rx.Future().payloads);
            a := a + [p];
          } else {
            Regroup(b, [p], rx.Datagrams().payloads);
            b := b + [p];
          }
        case _ => break;
      }
    }
    if native.None? {
      assert b == [];
      MergedAlone(payloads, a);
    }
  }

  lemma Regroup(a: seq<seq<byte>>, b: seq<seq<byte>>, c: seq<seq<byte>>)
    ensures a + (b + c) == a + b + c
  {
  }

  lemma StillAnswers(turns: seq<M.Turn>, stream: seq<byte>, now: seq<M.Turn>, rest: seq<byte>)
    requires Moved(turns, stream, now, rest) && M.Uptos(turns) > |stream|
    ensures now != []
  {
  }

  lemma NoneMerged()
    ensures Merged([], [], []) && Native(false, []) == Report([], true)
  {
  }

  lemma FromTheStart(stream: seq<byte>)
    ensures BatchAfter(0, stream) == Batch(stream)
  {
    assert stream[0..] == stream;
  }
}
