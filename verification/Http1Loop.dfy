/**
 The dispatcher as the object that is polled: each iteration of its read, write and flush loops
 calls the connection and updates its own fields in place.
 */
module Http1Loop {
  import opened Bytes
  import opened Http1Conn
  import opened Http1Dispatch

  class Loop {
    const conn: Connection
    var callback: Option<nat>
    var bodyTx: bool
    var bodyRx: bool
    var closing: bool
    var finished: bool
    /** What has happened: the exchanges, the heads received and the deliveries. */
    var log: seq<Exchange>
    var heads: nat
    var outcomes: seq<Delivery>

    function View(): Dispatcher
      reads this, conn
    {
      Dispatcher(conn.View(), callback, bodyTx, bodyRx, closing, finished, log, heads, outcomes)
    }

    /** The last exchange fits the connection, and deliveries are in turn. */
    predicate Valid()
      reads this, conn
    {
      Inv(View())
    }

    constructor ()
      ensures Valid() && View() == START && fresh(conn)
    {
      conn := new Connection();
      callback, bodyTx, bodyRx, closing, finished := None, false, false, false, false;
      log, heads, outcomes := [], 0, [];
    }

    method Shutdown()
      requires conn.Valid()
      modifies this, conn
      ensures conn.Valid() && View() == Shut(old(View()))
    {
      closing := true;
      conn.DoCloseRead();
      conn.DoCloseWrite();
    }

    /** Gives an error to the waiting callback, if there is one. */
    method GiveError()
      modifies this
      ensures View() == Deliver(old(View()))
    {
      if callback.Some? {
        outcomes := outcomes + [Delivery(callback.value, Failure)];
        callback := None;
      }
    }

    method Abort()
      modifies this
      ensures View() == Fail(old(View()))
    {
      bodyTx := false;
      finished := true;
      GiveError();
    }

    method Note(answer: Answer)
      modifies this
      ensures View() == Progressed(old(View()), conn.View(), answer)
    {
      if log != [] {
        var x := log[|log| - 1];
        log := log[|log| - 1 := x.(answer := answer)];
      }
    }

    /** A response head goes to the callback that waits, and starts the body if there is one. */
    method TakeHead(head: Head, probe: Probe)
      requires Valid() && Enabled(View(), Read(HeadArrives(head, probe)))
      modifies this, conn
      ensures View() == Step(old(View()), Read(HeadArrives(head, probe)))
      ensures callback.None? && outcomes == old(outcomes) + [Delivery(old(callback).value, Response(old(heads)))]
    {
      assert conn.Valid();
      hide Inv, GotHead;
      conn.ReadHeadDone(head, probe);
      bodyTx := !head.empty;
      if head.upgrade {
        conn.OnUpgrade();
      }
      Note(if head.empty then Complete else Receiving);
      outcomes := outcomes + [Delivery(callback.value, Response(heads))];
      heads := heads + 1;
      callback := None;
    }

    /** A connection that can read a head is not idle, so losing it is always an error. */
    method LoseHead(midParse: bool)
      requires Valid() && Enabled(View(), Read(HeadFails(midParse)))
      modifies this, conn
      ensures View() == Step(old(View()), Read(HeadFails(midParse)))
    {
      assert !conn.reuse.Idle?;
      conn.DoCloseRead();
      GiveError();
      Shutdown();
    }

    method TakeBody(decoded: Decoded, probe: Probe, accepted: bool)
      requires Valid() && Enabled(View(), Read(BodyArrives(decoded, probe, accepted)))
      modifies this, conn
      ensures View() == Step(old(View()), Read(BodyArrives(decoded, probe, accepted)))
    {
      assert conn.Valid();
      hide Inv, GotBody;
      if decoded.NotReady? {
        return;
      }
      conn.ReadBodyDone(decoded, probe);
      if decoded.Chunk? || decoded.Trailers? {
        if !accepted && CanReadBody(conn.View()) {
          conn.DoCloseRead();
        }
        bodyTx := accepted;
      } else {
        bodyTx := false;
      }
      Note(if Finishes(decoded) then Complete else Receiving);
    }

    method DropBody(decoded: Decoded, probe: Probe)
      requires Valid() && Enabled(View(), Read(BodyUnwanted(decoded, probe)))
      modifies this, conn
      ensures View() == Step(old(View()), Read(BodyUnwanted(decoded, probe)))
    {
      assert conn.Valid();
      hide Inv, Drain;
      bodyTx := false;
      conn.DrainOrCloseRead(decoded, probe);
      Note(if Finishes(decoded) then Complete else Receiving);
    }

    method ReadIdle(read: IdleRead)
      requires Valid() && Enabled(View(), Read(IdlePoll(read)))
      modifies this, conn
      ensures View() == Step(old(View()), Read(IdlePoll(read)))
    {
      if conn.reading.ReadClosed? {
        return;
      }
      var mid := MidMessage(conn.View());
      match read {
        case Nothing =>
        case Bytes =>
          if !mid {
            Abort();
          }
        case EndOfStream =>
          var mustError := mid || !conn.reuse.Idle?;
          conn.DoCloseRead();
          if mustError {
            Abort();
          }
        case Broken =>
          conn.DoClose();
          Abort();
      }
    }

    method PollRead(op: ReadOp)
      requires Valid() && Enabled(View(), Read(op))
      modifies this, conn
      ensures Valid() && View() == Step(old(View()), Read(op))
    {
      ReadInv(View(), op);
      hide Inv;
      match op {
        case Abandoned => Shutdown();
        case HeadArrives(head, probe) => TakeHead(head, probe);
        case HeadFails(midParse) => LoseHead(midParse);
        case BodyUnwanted(decoded, probe) => DropBody(decoded, probe);
        case BodyArrives(decoded, probe, accepted) => TakeBody(decoded, probe, accepted);
        case BodyOver => bodyTx := false;
        case IdlePoll(read) => ReadIdle(read);
      }
    }

    method Record(bytes: nat, ended: bool)
      modifies this
      ensures View() == Encoded(old(View()), conn.View(), bytes, ended)
    {
      if log != [] {
        var x := log[|log| - 1];
        log := log[|log| - 1 := x.(encoded := x.encoded + bytes, ended := x.ended || ended)];
      }
    }

    /** Ends the request body; ending it short ends the dispatcher. */
    method FinishBody()
      requires conn.Valid() && CanWriteBody(conn.View())
      modifies this, conn
      ensures View() == EndOfBody(old(View()))
    {
      var chunked := conn.writing.encoder.Chunked?;
      var ok := conn.DoEndBody();
      Record(0, chunked);
      if !ok {
        Abort();
      }
    }

    method Send(chunk: seq<byte>, last: bool)
      requires Valid() && Enabled(View(), Write(Data(chunk, last)))
      modifies this, conn
      ensures View() == Step(old(View()), Write(Data(chunk, last)))
    {
      if last {
        bodyRx := false;
      }
      if chunk == [] {
        if last {
          FinishBody();
        }
        return;
      }
      var n := Taken(conn.writing.encoder, chunk);
      if last {
        var chunked := conn.writing.encoder.Chunked?;
        conn.DoWriteBodyAndEnd(chunk);
        Record(n, chunked);
      } else {
        conn.DoWriteBody(chunk);
        Record(n, false);
      }
    }

    method PollWrite(op: WriteOp)
      requires Valid() && Enabled(View(), Write(op))
      modifies this, conn
      ensures Valid() && View() == Step(old(View()), Write(op))
    {
      WriteInv(View(), op);
      assert conn.Valid();
      hide Inv;
      match op {
        case Request(encoder, body, close) =>
          callback := Some(|log|);
          bodyRx := body;
          conn.DoWriteHead(encoder, close);
          log := log + [Exchange(encoder, 0, false, Awaited)];
        case NoRequest => Shutdown();
        case Data(chunk, last) => Send(chunk, last);
        case TrailerFrame(encoded) =>
          bodyRx := false;
          conn.DoWriteTrailers(encoded);
          if encoded {
            Record(0, true);
          }
        case BodyEnds =>
          bodyRx := false;
          FinishBody();
        case BodyFails =>
          bodyRx := false;
          Abort();
        case Discard => bodyRx := false;
        case EndWithoutBody => FinishBody();
      }
    }

    /** One iteration of any of the loops keeps every promise the invariant makes. */
    method Iterate(e: Event)
      requires Valid() && Enabled(View(), e)
      modifies this, conn
      ensures Valid() && View() == Step(old(View()), e)
    {
      StepInv(View(), e);
      assert conn.Valid();
      hide Inv, ApplyRead, ApplyWrite;
      match e {
        case Read(r) => PollRead(r);
        case Write(w) => PollWrite(w);
        case Flush(probe) => conn.DoTryKeepAlive(probe);
        case FlushFails => Abort();
        case Finish => finished := true;
      }
    }
  }

  lemma {:induction false} ReachesPush(d: Dispatcher, es: seq<Event>, d': Dispatcher, e: Event)
    requires Reaches(d, es, d') && Enabled(d', e)
    ensures Reaches(d, es + [e], Step(d', e))
    decreases |es|
  {
    hide Step, Enabled;
    var all := es + [e];
    if es == [] {
      assert all[1..] == [];
    } else {
      assert all[1..] == es[1..] + [e];
      ReachesPush(Step(d, es[0]), es[1..], d', e);
    }
  }

  /**
   Polls a dispatcher through any list of iterations, up to one that cannot happen: each
   response head went to the callback of its own request, in order and once.
   */
  method Drive(events: seq<Event>)
    returns (done: nat, requests: nat, outcomes: seq<Delivery>, ghost end: Dispatcher)
    ensures done <= |events| && Reaches(START, events[..done], end)
    ensures done < |events| ==> !Enabled(end, events[done])
    ensures |end.log| == requests && end.outcomes == outcomes
    ensures |outcomes| <= requests <= |outcomes| + 1
    ensures forall i | 0 <= i < |outcomes| ::
              outcomes[i].to == i && (outcomes[i].outcome.Response? ==> outcomes[i].outcome.head == i)
  {
    hide Inv, Enabled, Step, Reaches;
    var loop := new Loop();
    done := 0;
    assert Reaches(START, events[..0], START) by { Stay(START); assert events[..0] == []; }
    while done < |events| && Enabled(loop.View(), events[done])
      invariant done <= |events| && fresh(loop) && fresh(loop.conn) && loop.Valid()
      invariant Reaches(START, events[..done], loop.View())
      decreases |events| - done
    {
      ReachesPush(START, events[..done], loop.View(), events[done]);
      assert events[..done + 1] == events[..done] + [events[done]];
      loop.Iterate(events[done]);
      done := done + 1;
    }
    end := loop.View();
    Pairing(events[..done], end);
    requests, outcomes := |loop.log|, loop.outcomes;
  }

  lemma Stay(d: Dispatcher)
    ensures Reaches(d, [], d)
  {
  }
}
