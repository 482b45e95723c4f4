/**
 The HTTP/1 dispatcher over whole runs: requests are written and responses read in any
 interleaving of its read, write and flush iterations, whatever the transport, the bodies and
 the callers do.
 */
module Http1Dispatch {
  import opened Bytes
  import opened Http1Conn
  import E = ChunkedEncode

  datatype Answer = Awaited | Receiving | Complete

  /** One request: its body framing, what was encoded of it, and how far its response got. */
  datatype Exchange = Exchange(framing: E.Kind, encoded: nat, ended: bool, answer: Answer)

  /** What a request's callback was given: a response head, by arrival order, or an error. */
  datatype Outcome = Response(head: nat) | Failure

  /** An outcome and the request whose callback it went to. */
  datatype Delivery = Delivery(to: nat, outcome: Outcome)

  datatype Dispatcher = Dispatcher(
    conn: Conn,
    callback: Option<nat>,
    bodyTx: bool,
    bodyRx: bool,
    closing: bool,
    finished: bool,
    log: seq<Exchange>,
    heads: nat,
    outcomes: seq<Delivery>)

  const START: Dispatcher := Dispatcher(NEW, None, false, false, false, false, [], 0, [])

  /** What a read finds while no message is being read. */
  datatype IdleRead = Nothing | Bytes | EndOfStream | Broken

  datatype ReadOp =
    | Abandoned
    | HeadArrives(head: Head, probe: Probe)
    | HeadFails(midParse: bool)
    | BodyUnwanted(decoded: Decoded, probe: Probe)
    | BodyArrives(decoded: Decoded, probe: Probe, accepted: bool)
    | BodyOver
    | IdlePoll(read: IdleRead)

  datatype WriteOp =
    | Request(encoder: E.Kind, body: bool, close: bool)
    | NoRequest
    | Data(chunk: seq<byte>, last: bool)
    | TrailerFrame(encoded: bool)
    | BodyEnds
    | BodyFails
    | Discard
    | EndWithoutBody

  datatype Event = Read(r: ReadOp) | Write(w: WriteOp) | Flush(probe: Probe) | FlushFails | Finish

  // ----- the whole message -----

  /** The request was encoded completely: its declared length, or through the last chunk. */
  predicate Sent(x: Exchange) {
    match x.framing
    case Length(n) => x.encoded == n
    case Chunked(_) => x.ended
  }

  predicate Closed(x: Exchange) { Sent(x) && x.answer.Complete? }

  function Last(d: Dispatcher): Exchange
    requires d.log != []
  {
    d.log[|d.log| - 1]
  }

  function SetLast(d: Dispatcher, x: Exchange): seq<Exchange>
    requires d.log != []
  {
    d.log[|d.log| - 1 := x]
  }

  // ----- steps -----

  function Shut(d: Dispatcher): Dispatcher {
    d.(closing := true, conn := CloseWrite(CloseRead(d.conn)))
  }

  /** An error goes to the waiting callback, if there is one. */
  function Deliver(d: Dispatcher): Dispatcher {
    if d.callback.Some?
    then d.(callback := None, outcomes := d.outcomes + [Delivery(d.callback.value, Failure)]) else d
  }

  /** An error out of the loop ends the dispatcher. */
  function Fail(d: Dispatcher): Dispatcher {
    Deliver(d.(bodyTx := false, finished := true))
  }

  predicate ReadEnabled(d: Dispatcher, op: ReadOp) {
    match op
    case Abandoned => CanReadHead(d.conn)
    case HeadArrives(head, _) => CanReadHead(d.conn) && d.callback.Some? && Parsed(head)
    case HeadFails(_) => CanReadHead(d.conn) && d.callback.Some?
    case BodyUnwanted(_, _) => !CanReadHead(d.conn) && d.bodyTx && CanReadBody(d.conn)
    case BodyArrives(_, _, _) => !CanReadHead(d.conn) && d.bodyTx && CanReadBody(d.conn)
    case BodyOver => !CanReadHead(d.conn) && d.bodyTx && !CanReadBody(d.conn)
    case IdlePoll(_) => !CanReadHead(d.conn) && !d.bodyTx
  }

  function Progressed(d: Dispatcher, conn: Conn, answer: Answer): Dispatcher {
    if d.log == [] then d.(conn := conn)
    else d.(conn := conn, log := SetLast(d, Last(d).(answer := answer)))
  }

  function BodyStep(d: Dispatcher, conn: Conn, decoded: Decoded): Dispatcher {
    Progressed(d, conn, if Finishes(decoded) then Complete else Receiving)
  }

  function ApplyRead(d: Dispatcher, op: ReadOp): Dispatcher
    requires ReadEnabled(d, op)
  {
    match op
    case Abandoned => Shut(d)
    case HeadArrives(head, probe) =>
      var conn := GotHead(d.conn, head, probe);
      Progressed(d, conn.(upgrade := conn.upgrade || head.upgrade), if head.empty then Complete else Receiving)
      .(bodyTx := !head.empty, callback := None, heads := d.heads + 1,
        outcomes := d.outcomes + [Delivery(d.callback.value, Response(d.heads))])
    case HeadFails(midParse) =>
      var c := CloseRead(d.conn);
      if midParse || !d.conn.reuse.Idle? then Shut(Deliver(d.(conn := c)))
      else Shut(d.(conn := CloseWrite(c)))
    case BodyUnwanted(decoded, probe) =>
      BodyStep(d, Drain(d.conn, decoded, probe), decoded).(bodyTx := false)
    case BodyArrives(decoded, probe, accepted) =>
      var conn := GotBody(d.conn, decoded, probe);
      match decoded {
        case NotReady => d
        case Chunk(_) =>
          BodyStep(d, if !accepted && CanReadBody(conn) then CloseRead(conn) else conn, decoded)
          .(bodyTx := accepted)
        case Trailers =>
          BodyStep(d, if !accepted && CanReadBody(conn) then CloseRead(conn) else conn, decoded)
          .(bodyTx := accepted)
        case Ended(_) => BodyStep(d, conn, decoded).(bodyTx := false)
        case Malformed => BodyStep(d, conn, decoded).(bodyTx := false)
      }
    case BodyOver => d.(bodyTx := false)
    case IdlePoll(read) =>
      if d.conn.reading.ReadClosed? then d
      else
        match read
        case Nothing => d
        case Bytes => if MidMessage(d.conn) then d else Fail(d)
        case EndOfStream =>
          var d' := d.(conn := CloseRead(d.conn));
          if MidMessage(d.conn) || !d.conn.reuse.Idle? then Fail(d') else d'
        case Broken => Fail(d.(conn := Close(d.conn)))
  }

  predicate WriteEnabled(d: Dispatcher, op: WriteOp) {
    match op
    case Request(encoder, body, _) =>
      !d.bodyRx && CanWriteHead(d.conn) && d.callback.None? && (!body ==> encoder == E.Length(0))
    case NoRequest => !d.bodyRx && CanWriteHead(d.conn) && d.callback.None?
    case Data(_, _) => d.bodyRx && CanWriteBody(d.conn)
    case TrailerFrame(encoded) =>
      d.bodyRx && CanWriteBody(d.conn) && (encoded ==> d.conn.writing.encoder.Chunked?)
    case BodyEnds => d.bodyRx && CanWriteBody(d.conn)
    case BodyFails => d.bodyRx && CanWriteBody(d.conn)
    case Discard => d.bodyRx && !CanWriteBody(d.conn)
    case EndWithoutBody => !d.bodyRx && CanWriteBody(d.conn)
  }

  function Encoded(d: Dispatcher, conn: Conn, bytes: nat, ended: bool): Dispatcher {
    if d.log == [] then d.(conn := conn)
    else
      var x := Last(d);
      d.(conn := conn, log := SetLast(d, x.(encoded := x.encoded + bytes, ended := x.ended || ended)))
  }

  /** Bytes of a frame the encoder takes: a sized body never exceeds its length. */
  function Taken(encoder: E.Kind, chunk: seq<byte>): nat {
    match encoder
    case Length(n) => Min(n, |chunk|)
    case Chunked(_) => |chunk|
  }

  /** Ending a sized body short is an error. */
  function EndOfBody(d: Dispatcher): Dispatcher
    requires CanWriteBody(d.conn)
  {
    var end := E.EndOf(d.conn.writing.encoder);
    var d' := Encoded(d, EndBody(d.conn), 0, end.Suffix?);
    if end.NotEof? then Fail(d') else d'
  }

  function ApplyWrite(d: Dispatcher, op: WriteOp): Dispatcher
    requires WriteEnabled(d, op)
  {
    match op
    case Request(encoder, body, close) =>
      d.(conn := PutHead(d.conn, encoder, close), bodyRx := body, callback := Some(|d.log|),
         log := d.log + [Exchange(encoder, 0, false, Awaited)])
    case NoRequest => Shut(d)
    case Data(chunk, last) =>
      if chunk == [] then
        if last then EndOfBody(d.(bodyRx := false)) else d
      else
        var n := Taken(d.conn.writing.encoder, chunk);
        if last
        then Encoded(d.(bodyRx := false), PutLast(d.conn, chunk), n, d.conn.writing.encoder.Chunked?)
        else Encoded(d, PutBody(d.conn, chunk), n, false)
    case TrailerFrame(encoded) =>
      var d' := d.(bodyRx := false);
      if encoded then Encoded(d', d.conn.(writing := WriteDone), 0, true) else d'
    case BodyEnds => EndOfBody(d.(bodyRx := false))
    case BodyFails => Fail(d.(bodyRx := false))
    case Discard => d.(bodyRx := false)
    case EndWithoutBody => EndOfBody(d)
  }

  predicate Enabled(d: Dispatcher, e: Event) {
    !d.finished &&
    match e
    case Read(r) => !d.closing && ReadEnabled(d, r)
    case Write(w) => !d.closing && WriteEnabled(d, w)
    case Flush(_) => true
    case FlushFails => true
    case Finish => d.closing || d.conn.reading.ReadClosed?
  }

  function Step(d: Dispatcher, e: Event): Dispatcher
    requires Enabled(d, e)
  {
    match e
    case Read(r) => ApplyRead(d, r)
    case Write(w) => ApplyWrite(d, w)
    case Flush(probe) => d.(conn := Settle(d.conn, probe))
    case FlushFails => Fail(d)
    case Finish => d.(finished := true)
  }

  // ----- invariants -----

  /** The last exchange is exactly as far as the connection says. */
  predicate Aligned(d: Dispatcher) {
    && (d.log == [] ==> d.conn.writing.WriteHead? || d.conn.writing.WriteClosed?)
    && (d.log != [] ==>
          var x := Last(d);
          && (d.conn.writing.WriteHead? ==> Closed(x))
          && (d.conn.writing.WriteDone? ==> Sent(x))
          && (d.conn.writing.WriteBody? ==>
                match x.framing
                case Length(n) =>
                  x.encoded < n && d.conn.writing.encoder == E.Length(n - x.encoded)
                case Chunked(_) => d.conn.writing.encoder.Chunked?)
          && (d.conn.reading.ReadDone? ==> x.answer.Complete?))
    && (d.conn.reading.ReadBody? || d.conn.reading.ReadDone? ==>
          d.log != [] && d.callback.None? && !d.conn.writing.WriteHead?)
  }

  /** The i-th delivery went to the i-th request, and a response in it is the i-th head received. */
  predicate InTurn(ds: seq<Delivery>) {
    forall i | 0 <= i < |ds| :: ds[i].to == i && (ds[i].outcome.Response? ==> ds[i].outcome.head == i)
  }

  /** Callbacks are served in order, and the response heads match them one to one. */
  predicate Paired(d: Dispatcher) {
    && |d.outcomes| == (if d.callback.Some? then |d.log| - 1 else |d.log|)
    && (d.callback.Some? ==> d.callback.value == |d.log| - 1)
    && InTurn(d.outcomes)
    && (!d.closing && !d.finished ==>
          d.heads == |d.outcomes| && forall i | 0 <= i < |d.outcomes| :: d.outcomes[i].outcome.Response?)
  }

  predicate Ruled(d: Dispatcher) {
    && Sound(d.conn)
    && (d.conn.writing.WriteHead? && !d.conn.reading.ReadClosed? ==> d.callback.None?)
    && (d.closing ==> d.conn.writing.WriteClosed?)
  }

  predicate InOrder(d: Dispatcher) {
    forall i | 0 <= i < |d.log| - 1 :: Closed(d.log[i])
  }

  predicate Inv(d: Dispatcher) {
    Aligned(d) && Paired(d) && Ruled(d) && InOrder(d)
  }

  lemma HeadInv(d: Dispatcher, head: Head, probe: Probe)
    requires Inv(d) && Enabled(d, Read(HeadArrives(head, probe)))
    ensures Inv(Step(d, Read(HeadArrives(head, probe))))
  {
  }

  lemma BodyStepInv(d: Dispatcher, decoded: Decoded, probe: Probe)
    requires Inv(d) && !d.closing && CanReadBody(d.conn)
    ensures Inv(BodyStep(d, GotBody(d.conn, decoded, probe), decoded))
  {
    if Finishes(decoded) {
      DoneInv(d, probe);
    } else {
      ReadFailedInv(d, probe);
    }
    hide Settle;
  }

  lemma DoneInv(d: Dispatcher, probe: Probe)
    requires Inv(d) && CanReadBody(d.conn)
    ensures Inv(Progressed(d, Settle(d.conn.(reading := ReadDone), probe), Complete))
  {
  }

  lemma ReadFailedInv(d: Dispatcher, probe: Probe)
    requires Inv(d) && CanReadBody(d.conn)
    ensures Inv(Progressed(d, Settle(d.conn.(reading := ReadClosed), probe), Receiving))
  {
  }

  /** Closing the read direction keeps whatever held, except that nothing is complete by it. */
  lemma CloseReadInv(d: Dispatcher, tx: bool)
    requires Inv(d)
    ensures Inv(d.(conn := CloseRead(d.conn), bodyTx := tx)) && Inv(d.(bodyTx := tx))
  {
  }

  lemma BodyInv(d: Dispatcher, op: ReadOp)
    requires Inv(d) && Enabled(d, Read(op)) && (op.BodyUnwanted? || op.BodyArrives?)
    ensures Inv(Step(d, Read(op)))
  {
    BodyStepInv(d, op.decoded, op.probe);
    var next := BodyStep(d, GotBody(d.conn, op.decoded, op.probe), op.decoded);
    CloseReadInv(next, Step(d, Read(op)).bodyTx);
    hide Inv, GotBody;
  }

  lemma ReadInv(d: Dispatcher, op: ReadOp)
    requires Inv(d) && Enabled(d, Read(op))
    ensures Inv(Step(d, Read(op)))
  {
    if op.HeadArrives? {
      HeadInv(d, op.head, op.probe);
      hide Inv, Step;
    } else if op.BodyUnwanted? || op.BodyArrives? {
      BodyInv(d, op);
      hide Inv, Step;
    } else if op.IdlePoll? {
      IdleInv(d, op.read);
      hide Inv, Step;
    }
  }

  lemma IdleInv(d: Dispatcher, read: IdleRead)
    requires Inv(d) && Enabled(d, Read(IdlePoll(read)))
    ensures Inv(Step(d, Read(IdlePoll(read))))
  {
    CloseReadInv(d, d.bodyTx);
    FailInv(d);
    FailInv(d.(conn := CloseRead(d.conn)));
    assert Inv(d.(conn := Close(d.conn)));
    FailInv(d.(conn := Close(d.conn)));
    hide Inv, Fail;
  }

  lemma RequestInv(d: Dispatcher, op: WriteOp)
    requires Inv(d) && Enabled(d, Write(op)) && op.Request?
    ensures Inv(Step(d, Write(op)))
  {
  }

  lemma FailInv(d: Dispatcher)
    requires Inv(d)
    ensures Inv(Fail(d))
  {
  }

  lemma EndOfBodyInv(d: Dispatcher)
    requires Inv(d) && CanWriteBody(d.conn)
    ensures Inv(EndOfBody(d))
  {
    var d' := Encoded(d, EndBody(d.conn), 0, E.EndOf(d.conn.writing.encoder).Suffix?);
    assert Inv(d');
    FailInv(d');
  }

  lemma DataInv(d: Dispatcher, chunk: seq<byte>, last: bool)
    requires Inv(d) && CanWriteBody(d.conn) && chunk != []
    ensures Inv(ApplyWrite(d.(bodyRx := true), Data(chunk, last)))
  {
  }

  lemma WriteInv(d: Dispatcher, op: WriteOp)
    requires Inv(d) && Enabled(d, Write(op))
    ensures Inv(Step(d, Write(op)))
  {
    var d' := d.(bodyRx := false);
    assert Inv(d');
    match op {
      case Request(_, _, _) => RequestInv(d, op);
      case NoRequest =>
      case Data(chunk, last) =>
        if chunk != [] {
          DataInv(d, chunk, last);
          assert d == d.(bodyRx := true);
        } else {
          EndOfBodyInv(d');
        }
      case TrailerFrame(_) =>
      case BodyEnds => EndOfBodyInv(d');
      case BodyFails => FailInv(d');
      case Discard =>
      case EndWithoutBody => EndOfBodyInv(d);
    }
  }

  lemma FlushInv(d: Dispatcher, probe: Probe)
    requires Inv(d) && !d.finished
    ensures Inv(Step(d, Flush(probe)))
  {
  }

  lemma StepInv(d: Dispatcher, e: Event)
    requires Inv(d) && Enabled(d, e)
    ensures Inv(Step(d, e))
  {
    match e {
      case Read(r) => ReadInv(d, r); hide Inv, Step;
      case Write(w) => WriteInv(d, w); hide Inv, Step;
      case Flush(probe) => FlushInv(d, probe); hide Inv, Step;
      case FlushFails => FailInv(d); hide Inv;
      case Finish =>
    }
  }

  // ----- runs -----

  predicate Reaches(d: Dispatcher, es: seq<Event>, d': Dispatcher)
    decreases |es|
  {
    if es == [] then d' == d
    else Enabled(d, es[0]) && Reaches(Step(d, es[0]), es[1..], d')
  }

  lemma {:induction false} ReachesInv(d: Dispatcher, es: seq<Event>, d': Dispatcher)
    requires Inv(d) && Reaches(d, es, d')
    ensures Inv(d')
    decreases |es|
  {
    hide Inv, Step, Enabled;
    if es != [] {
      StepInv(d, es[0]);
      ReachesInv(Step(d, es[0]), es[1..], d');
    }
  }

  /**
   In every run, a request head is encoded only once every earlier request was encoded
   completely and its response decoded to the end, and each earlier request's callback got
   the response head that arrived in its turn.
   */
  lemma NextRequest(es: seq<Event>, d: Dispatcher, op: WriteOp)
    requires Reaches(START, es, d) && op.Request? && Enabled(d, Write(op))
    ensures forall i | 0 <= i < |d.log| :: Closed(d.log[i])
    ensures |d.outcomes| == |d.log|
    ensures forall i | 0 <= i < |d.log| :: d.outcomes[i] == Delivery(i, Response(i))
    ensures d.conn.reading.ReadHead? && !d.conn.reuse.Disabled? && !d.conn.upgrade
  {
    ReachesInv(START, es, d);
    hide Reaches, Closed;
    if d.log != [] {
      assert Closed(Last(d));
    }
  }

  /** In every run, no callback gets another request's response or more than one outcome. */
  lemma Pairing(es: seq<Event>, d: Dispatcher)
    requires Reaches(START, es, d)
    ensures |d.outcomes| <= |d.log| <= |d.outcomes| + 1
    ensures forall i | 0 <= i < |d.outcomes| ::
              d.outcomes[i].to == i && (d.outcomes[i].outcome.Response? ==> d.outcomes[i].outcome.head == i)
    ensures forall i | 0 <= i < |d.log| - 1 :: Closed(d.log[i])
  {
    ReachesInv(START, es, d);
  }

  /** Nothing more can be sent: reuse is ruled out, or a direction or the dispatcher closed. */
  predicate Final(d: Dispatcher) {
    || d.conn.reuse.Disabled? || d.conn.writing.WriteClosed? || d.conn.reading.ReadClosed?
    || d.closing || d.finished
  }

  lemma KeptRead(d: Dispatcher, op: ReadOp)
    requires Inv(d) && Enabled(d, Read(op))
    ensures Kept(d.conn, Step(d, Read(op)).conn) && Reopened(d.conn, Step(d, Read(op)).conn)
    ensures |Step(d, Read(op)).log| == |d.log|
  {
    if op.HeadArrives? {
      HeadForward(d.conn, op.head, op.probe);
    } else if op.BodyUnwanted? || op.BodyArrives? {
      BodyForward(d.conn, op.decoded, op.probe);
    }
    hide GotHead, GotBody, Drain;
  }

  lemma KeptWrite(d: Dispatcher, op: WriteOp)
    requires Inv(d) && Enabled(d, Write(op))
    ensures Kept(d.conn, Step(d, Write(op)).conn) && Reopened(d.conn, Step(d, Write(op)).conn)
    ensures !op.Request? ==> |Step(d, Write(op)).log| == |d.log|
  {
  }

  lemma KeptStep(d: Dispatcher, e: Event)
    requires Inv(d) && Enabled(d, e)
    ensures Kept(d.conn, Step(d, e).conn) && Reopened(d.conn, Step(d, e).conn)
    ensures Final(d) ==> Final(Step(d, e)) && |Step(d, e).log| == |d.log|
  {
    match e {
      case Read(r) => KeptRead(d, r); hide ApplyRead;
      case Write(w) => KeptWrite(d, w); hide ApplyWrite;
      case Flush(probe) => SettleForward(d.conn, probe);
      case _ =>
    }
  }

  /**
   After a close in either direction, an upgrade, a short body or a head that rules out reuse,
   no further request is ever encoded on the connection.
   */
  lemma {:induction false} NoReuse(d: Dispatcher, es: seq<Event>, d': Dispatcher)
    requires Inv(d) && Reaches(d, es, d') && (Final(d) || d.conn.upgrade)
    ensures |d'.log| == |d.log|
    ensures d.conn.reuse.Disabled? ==> d'.conn.reuse.Disabled?
    decreases |es|
  {
    assert Final(d);
    hide Inv, Step, Enabled, Final;
    if es != [] {
      KeptStep(d, es[0]);
      StepInv(d, es[0]);
      NoReuse(Step(d, es[0]), es[1..], d');
    }
  }

  /**
   A body that ends before its declared length closes the connection for good, whoever ended it;
   only a late trailer frame is dropped with its source and leaves the writing as it was.
   */
  lemma ShortBodyIsFinal(d: Dispatcher, op: WriteOp)
    requires Inv(d) && Enabled(d, Write(op)) && d.conn.writing.WriteBody?
    ensures var d' := Step(d, Write(op));
            && (!d'.conn.writing.WriteBody? && !Sent(Last(d')) ==> Final(d'))
            && (d.bodyRx && !d'.bodyRx && !Sent(Last(d')) ==>
                  Final(d') || (op == TrailerFrame(false) && d' == d.(bodyRx := false)))
  {
  }

  /**
   The connection becomes ready for the next request only by going idle with both directions
   done and reuse not ruled out.
   */
  lemma Reopening(d: Dispatcher, e: Event)
    requires Inv(d) && Enabled(d, e)
    ensures !d.conn.writing.WriteHead? && Step(d, e).conn.writing.WriteHead? ==>
              && d.conn.writing.WriteDone? && d.conn.reuse.Busy?
              && Step(d, e).conn.reading.ReadHead? && Step(d, e).conn.reuse.Idle?
              && Closed(Last(Step(d, e)))
  {
    StepInv(d, e);
    KeptStep(d, e);
    hide Step;
  }
}
