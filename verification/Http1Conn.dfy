/**
 The HTTP/1 client connection: what it may read and write, whether it may be reused, and the
 class that updates this in place.
 */
module Http1Conn {
  import opened Bytes
  import E = ChunkedEncode

  datatype Reuse = Idle | Busy | Disabled

  datatype Reading = ReadHead | ReadBody | ReadDone | ReadClosed

  datatype Writing = WriteHead | WriteBody(encoder: E.Kind) | WriteDone | WriteClosed

  datatype Conn = Conn(reading: Reading, writing: Writing, reuse: Reuse, upgrade: bool, notifyRead: bool)

  const NEW: Conn := Conn(ReadHead, WriteHead, Busy, false, false)

  /** What a speculative read finds when the connection could read a head. */
  datatype Probe = Quiet | Input | Eof | Failed

  /** The parts of a final response head the connection acts on. */
  datatype Head = Head(empty: bool, keepAlive: bool, upgrade: bool)

  /** An upgrade has no body and is never kept alive. */
  predicate Parsed(h: Head) {
    h.upgrade ==> h.empty && !h.keepAlive
  }

  /** What the body decoder returns. */
  datatype Decoded = NotReady | Chunk(last: bool) | Ended(eof: bool) | Trailers | Malformed

  /** The answers that end a response completely. */
  predicate Finishes(d: Decoded) {
    d == Chunk(true) || d == Ended(true) || d.Trailers?
  }

  predicate CanReadHead(c: Conn) { c.reading.ReadHead? && !c.writing.WriteHead? }

  predicate CanReadBody(c: Conn) { c.reading.ReadBody? }

  predicate CanWriteHead(c: Conn) { !c.reading.ReadClosed? && c.writing.WriteHead? }

  predicate CanWriteBody(c: Conn) { c.writing.WriteBody? }

  predicate MidMessage(c: Conn) { !(c.reading.ReadHead? && c.writing.WriteHead?) }

  // ----- specification -----

  function Close(c: Conn): Conn {
    c.(reading := ReadClosed, writing := WriteClosed, reuse := Disabled)
  }

  function CloseRead(c: Conn): Conn { c.(reading := ReadClosed, reuse := Disabled) }

  function CloseWrite(c: Conn): Conn { c.(writing := WriteClosed, reuse := Disabled) }

  function MarkBusy(c: Conn): Conn {
    if c.reuse.Disabled? then c else c.(reuse := Busy)
  }

  function TryKeepAlive(c: Conn): Conn {
    match (c.reading, c.writing)
    case (ReadDone, WriteDone) =>
      if c.reuse.Busy? then c.(reading := ReadHead, writing := WriteHead, reuse := Idle, notifyRead := true)
      else Close(c)
    case (ReadClosed, WriteDone) => Close(c)
    case (ReadDone, WriteClosed) => Close(c)
    case _ => c
  }

  function MaybeNotify(c: Conn, probe: Probe): Conn {
    if !c.reading.ReadHead? || c.writing.WriteBody? then c
    else
      match probe
      case Quiet => c
      case Input => c.(notifyRead := true)
      case Eof => if c.reuse.Idle? then Close(c) else CloseRead(c)
      case Failed => Close(c).(notifyRead := true)
  }

  function Settle(c: Conn, probe: Probe): Conn { MaybeNotify(TryKeepAlive(c), probe) }

  function GotHead(c: Conn, h: Head, probe: Probe): Conn {
    var busy := MarkBusy(c);
    var c := if h.keepAlive then busy else busy.(reuse := Disabled);
    if h.empty then Settle(c.(reading := ReadDone), probe) else c.(reading := ReadBody)
  }

  function GotBody(c: Conn, d: Decoded, probe: Probe): Conn {
    match d
    case NotReady => c
    case Chunk(false) => c
    case Chunk(true) => Settle(c.(reading := ReadDone), probe)
    case Ended(true) => Settle(c.(reading := ReadDone), probe)
    case Ended(false) => Settle(c.(reading := ReadClosed), probe)
    case Trailers => Settle(c.(reading := ReadDone), probe)
    case Malformed => Settle(c.(reading := ReadClosed), probe)
  }

  /** Reads once more for a body nobody wants, and closes unless that finished it. */
  function Drain(c: Conn, d: Decoded, probe: Probe): Conn {
    var c := GotBody(c, d, probe);
    if c.reading.ReadHead? || c.reading.ReadDone? then c else CloseRead(c)
  }

  /** `close` says the request head itself rules out reuse. */
  function PutHead(c: Conn, encoder: E.Kind, close: bool): Conn {
    var busy := MarkBusy(c);
    var c := if close then busy.(reuse := Disabled) else busy;
    c.(writing := if encoder == E.Length(0) then WriteDone else WriteBody(encoder))
  }

  function PutBody(c: Conn, chunk: seq<byte>): Conn
    requires CanWriteBody(c)
  {
    var encoder := E.After(c.writing.encoder, chunk);
    c.(writing := if encoder == E.Length(0) then WriteDone else WriteBody(encoder))
  }

  function PutLast(c: Conn, chunk: seq<byte>): Conn
    requires CanWriteBody(c)
  {
    c.(writing := if E.EndOf(E.After(c.writing.encoder, chunk)).NotEof? then WriteClosed else WriteDone)
  }

  function EndBody(c: Conn): Conn
    requires CanWriteBody(c)
  {
    c.(writing := if E.EndOf(c.writing.encoder).NotEof? then WriteClosed else WriteDone)
  }

  // ----- what every operation keeps -----

  /** Reuse fits the two directions: ruled out means no further head, idle means both are ready. */
  predicate Sound(c: Conn) {
    && (c.reuse.Disabled? ==> !CanWriteHead(c))
    && (c.reuse.Idle? ==> c.reading.ReadHead? && c.writing.WriteHead?)
    && (c.reading.ReadBody? || c.reading.ReadDone? ==> !c.writing.WriteHead?)
    && (c.upgrade ==> c.reuse.Disabled?)
    && (c.writing.WriteBody? ==> c.writing.encoder != E.Length(0))
  }

  /** Reuse, once ruled out, and either closed direction stay that way. */
  predicate Kept(c: Conn, c': Conn) {
    && (c.reuse.Disabled? ==> c'.reuse.Disabled?)
    && (c.reading.ReadClosed? ==> c'.reading.ReadClosed?)
    && (c.writing.WriteClosed? ==> c'.writing.WriteClosed?)
  }

  /** A head may be written again only by going idle: everything done and reuse not ruled out. */
  predicate Reopened(c: Conn, c': Conn) {
    !c.writing.WriteHead? && c'.writing.WriteHead? ==>
      c.writing.WriteDone? && !c.reuse.Disabled? && c'.reading.ReadHead? && c'.reuse.Idle?
  }

  /** A step from one sound state to another that undoes nothing. */
  predicate Forward(c: Conn, c': Conn) {
    Sound(c') && Kept(c, c') && Reopened(c, c')
  }

  lemma SettleForward(c: Conn, probe: Probe)
    requires Sound(c)
    ensures Forward(c, Settle(c, probe))
  {
  }

  lemma HeadForward(c: Conn, head: Head, probe: Probe)
    requires Sound(c) && CanReadHead(c)
    ensures Forward(c, GotHead(c, head, probe))
  {
  }

  lemma BodyForward(c: Conn, d: Decoded, probe: Probe)
    requires Sound(c) && CanReadBody(c)
    ensures Forward(c, GotBody(c, d, probe)) && Forward(c, Drain(c, d, probe))
  {
    hide MaybeNotify;
    SettleForward(c.(reading := ReadDone), probe);
    SettleForward(c.(reading := ReadClosed), probe);
  }

  // ----- the connection as an object -----

  class Connection {
    var reading: Reading
    var writing: Writing
    var reuse: Reuse
    var upgrade: bool
    var notifyRead: bool

    function View(): Conn
      reads this
    {
      Conn(reading, writing, reuse, upgrade, notifyRead)
    }

    predicate Valid()
      reads this
    {
      Sound(View())
    }

    constructor ()
      ensures Valid() && View() == NEW
    {
      reading, writing, reuse, upgrade, notifyRead := ReadHead, WriteHead, Busy, false, false;
    }

    method DoClose()
      modifies this
      ensures Valid() && View() == Close(old(View()))
    {
      reading := ReadClosed;
      writing := WriteClosed;
      reuse := Disabled;
    }

    method DoCloseRead()
      requires Valid()
      modifies this
      ensures Forward(old(View()), View()) && View() == CloseRead(old(View()))
    {
      reading := ReadClosed;
      reuse := Disabled;
    }

    method DoCloseWrite()
      requires Valid()
      modifies this
      ensures Forward(old(View()), View()) && View() == CloseWrite(old(View()))
    {
      writing := WriteClosed;
      reuse := Disabled;
    }

    method DoBusy()
      modifies this
      ensures View() == MarkBusy(old(View()))
    {
      if reuse.Disabled? {
        return;
      }
      reuse := Busy;
    }

    method GoIdle()
      modifies this
      ensures View() == old(View()).(reading := ReadHead, writing := WriteHead, reuse := Idle, notifyRead := true)
    {
      reuse := Idle;
      reading := ReadHead;
      writing := WriteHead;
      notifyRead := true;
    }

    method DoMaybeNotify(probe: Probe)
      modifies this
      ensures View() == MaybeNotify(old(View()), probe)
    {
      if !reading.ReadHead? || writing.WriteBody? {
        return;
      }
      match probe
      case Quiet =>
      case Input => notifyRead := true;
      case Eof =>
        if reuse.Idle? {
          DoClose();
        } else {
          reading := ReadClosed;
          reuse := Disabled;
        }
      case Failed =>
        DoClose();
        notifyRead := true;
    }

    /**
     After both directions are done the connection is idle and ready for a request if reuse is
     allowed, and closed for good if not; otherwise nothing reopens.
     */
    method DoTryKeepAlive(probe: Probe)
      requires Valid()
      modifies this
      ensures Forward(old(View()), View())
      ensures old(reading.ReadDone? && writing.WriteDone?) ==>
                if old(reuse.Busy?) && (probe.Quiet? || probe.Input?)
                then CanWriteHead(View()) && reuse.Idle?
                else reading.ReadClosed? && writing.WriteClosed?
      ensures !old(reading.ReadDone? && writing.WriteDone?) ==> CanWriteHead(View()) ==> old(CanWriteHead(View()))
      ensures View() == Settle(old(View()), probe)
    {
      SettleForward(View(), probe);
      if reading.ReadDone? && writing.WriteDone? {
        if reuse.Busy? {
          GoIdle();
        } else {
          DoClose();
        }
      } else if (reading.ReadClosed? && writing.WriteDone?) || (reading.ReadDone? && writing.WriteClosed?) {
        DoClose();
      }
      DoMaybeNotify(probe);
    }

    /**
     A response head starts a body, or ends the response: then the next request may be written
     only if this one was written completely and the head allows reuse.
     */
    method ReadHeadDone(head: Head, probe: Probe)
      requires Valid() && CanReadHead(View())
      modifies this
      ensures Forward(old(View()), View())
      ensures CanReadBody(View()) <==> !head.empty
      ensures !head.keepAlive ==> reuse.Disabled?
      ensures CanWriteHead(View()) ==> head.empty && head.keepAlive && old(writing.WriteDone? && reuse.Busy?)
      ensures View() == GotHead(old(View()), head, probe)
    {
      HeadForward(View(), head, probe);
      DoBusy();
      if !head.keepAlive {
        reuse := Disabled;
      }
      if head.empty {
        reading := ReadDone;
        DoTryKeepAlive(probe);
      } else {
        reading := ReadBody;
      }
    }

    /**
     The body goes on exactly while the decoder has more; the next request may be written only
     once it ended completely after a completely written request.
     */
    method ReadBodyDone(d: Decoded, probe: Probe)
      requires Valid() && CanReadBody(View())
      modifies this
      ensures Forward(old(View()), View())
      ensures CanReadBody(View()) <==> d.NotReady? || d == Chunk(false)
      ensures CanWriteHead(View()) ==> Finishes(d) && old(writing.WriteDone? && reuse.Busy?)
      ensures d.Malformed? || d == Ended(false) ==> reading.ReadClosed?
      ensures View() == GotBody(old(View()), d, probe)
    {
      BodyForward(View(), d, probe);
      match d {
        case NotReady => return;
        case Chunk(last) =>
          if !last {
            return;
          }
          reading := ReadDone;
        case Ended(eof) => reading := if eof then ReadDone else ReadClosed;
        case Trailers => reading := ReadDone;
        case Malformed => reading := ReadClosed;
      }
      DoTryKeepAlive(probe);
    }

    /** An unwanted body never stays open: one more read ends it, or reading is closed. */
    method DrainOrCloseRead(d: Decoded, probe: Probe)
      requires Valid() && CanReadBody(View())
      modifies this
      ensures Forward(old(View()), View()) && !CanReadBody(View())
      ensures !Finishes(d) ==> reading.ReadClosed? && reuse.Disabled?
      ensures CanWriteHead(View()) ==> Finishes(d) && old(writing.WriteDone? && reuse.Busy?)
      ensures View() == Drain(old(View()), d, probe)
    {
      BodyForward(View(), d, probe);
      ReadBodyDone(d, probe);
      if !reading.ReadHead? && !reading.ReadDone? {
        DoCloseRead();
      }
    }

    /** After a head no other may be written until this request is over; `close` makes it the last. */
    method DoWriteHead(encoder: E.Kind, close: bool)
      requires Valid() && CanWriteHead(View())
      modifies this
      ensures Forward(old(View()), View()) && !CanWriteHead(View()) && CanReadHead(View())
      ensures close <==> reuse.Disabled?
      ensures CanWriteBody(View()) <==> encoder != E.Length(0)
      ensures View() == PutHead(old(View()), encoder, close)
    {
      DoBusy();
      if close {
        reuse := Disabled;
      }
      if encoder != E.Length(0) {
        writing := WriteBody(encoder);
      } else {
        writing := WriteDone;
      }
    }

    method DoWriteBody(chunk: seq<byte>)
      requires Valid() && CanWriteBody(View()) && chunk != []
      modifies this
      ensures Forward(old(View()), View())
      ensures View() == PutBody(old(View()), chunk)
    {
      var enc := new E.Encoder(writing.encoder);
      var _ := enc.Encode(chunk);
      if enc.kind != E.Length(0) {
        writing := WriteBody(enc.kind);
      } else {
        writing := WriteDone;
      }
    }

    method DoWriteBodyAndEnd(chunk: seq<byte>)
      requires Valid() && CanWriteBody(View()) && chunk != []
      modifies this
      ensures Forward(old(View()), View())
      ensures View() == PutLast(old(View()), chunk)
    {
      var enc := new E.Encoder(writing.encoder);
      var _, keepAlive := enc.EncodeAndEnd(chunk);
      writing := if keepAlive then WriteDone else WriteClosed;
    }

    /** Trailers end the body only if they were written. */
    method DoWriteTrailers(encoded: bool)
      requires Valid() && CanWriteBody(View())
      modifies this
      ensures Forward(old(View()), View())
      ensures View() == if encoded then old(View()).(writing := WriteDone) else old(View())
    {
      if encoded {
        writing := WriteDone;
      }
    }

    method DoEndBody() returns (ok: bool)
      requires Valid() && CanWriteBody(View())
      modifies this
      ensures Forward(old(View()), View())
      ensures View() == EndBody(old(View()))
      ensures ok <==> writing.WriteDone?
    {
      ok := !E.EndOf(writing.encoder).NotEof?;
      if ok {
        writing := WriteDone;
      } else {
        writing := WriteClosed;
      }
    }

    /** An upgrade is only expected after a head that rules out reuse. */
    method OnUpgrade()
      requires Valid() && reuse.Disabled?
      modifies this
      ensures Forward(old(View()), View()) && View() == old(View()).(upgrade := true)
    {
      upgrade := true;
    }
  }
}
