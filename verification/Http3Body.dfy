/**
 One HTTP/3 exchange after its response head: the response body, the request body pipe, the
 admission slot they share and the declared lengths both directions keep.
 */
module Http3Body {
  import opened Bytes

  // ----- releasing the exchange -----

  /**
   The shared receive state. `active` is the admission slot while it is held, with whether it
   still owns its permit; `drops` and `refunds` count what happened to the two so far.
   */
  datatype Exchange = Exchange(
    recv: bool,
    active: Option<bool>,
    pipePending: bool,
    refused: bool,
    drops: nat,
    refunds: nat)

  function Opened(pipePending: bool, refused: bool): Exchange {
    Release(Exchange(true, Some(true), pipePending, refused, 0, 0))
  }

  function ReturnPermit(x: Exchange): Exchange {
    if x.active == Some(true) then x.(active := Some(false), refunds := x.refunds + 1) else x
  }

  function DropActive(x: Exchange): Exchange {
    if x.active.None? then x
    else
      var y := ReturnPermit(x);
      y.(active := None, drops := y.drops + 1)
  }

  function Release(x: Exchange): Exchange {
    if x.pipePending then x
    else if !x.recv then DropActive(x.(refused := false))
    else if x.refused then x
    else ReturnPermit(x)
  }

  /** The response was read to its end, failed, was cancelled or was dropped by the caller. */
  function StopReceiving(x: Exchange): Exchange {
    if x.recv then Release(x.(recv := false)) else x
  }

  /** The pipe finished or its task was discarded; a send failure also stops receiving. */
  function PipeGone(x: Exchange, failed: bool): Exchange {
    var y := Release(x.(pipePending := false));
    if failed then StopReceiving(y) else y
  }

  datatype Event = ResponseOver | PipeOver(failed: bool)

  function Apply(x: Exchange, e: Event): Exchange {
    match e
    case ResponseOver => StopReceiving(x)
    case PipeOver(failed) => PipeGone(x, failed)
  }

  function After(x: Exchange, es: seq<Event>): Exchange
    decreases |es|
  {
    if es == [] then x else After(Apply(x, es[0]), es[1..])
  }

  /** Slot and permit are where the two directions say they are. */
  predicate Settled(x: Exchange) {
    && (x.drops == 1 <==> !x.recv && !x.pipePending)
    && (x.refunds == 1 <==> !x.pipePending && (!x.recv || !x.refused))
    && x.drops <= 1 && x.refunds <= 1
    && (x.active.None? <==> x.drops == 1)
    && (x.active == Some(true) <==> x.refunds == 0)
  }

  lemma StopSettles(x: Exchange)
    requires Settled(x)
    ensures Settled(StopReceiving(x)) && !StopReceiving(x).recv
    ensures StopReceiving(x).pipePending == x.pipePending && (!x.recv ==> StopReceiving(x) == x)
  {
  }

  lemma PipeGoneSettles(x: Exchange, failed: bool)
    requires Settled(x)
    ensures Settled(PipeGone(x, failed)) && !PipeGone(x, failed).pipePending
    ensures PipeGone(x, failed).recv == (x.recv && !failed)
  {
  }

  /**
   Under every order of endings the slot is dropped exactly once, when receiving is over and
   sending is not pending, and its permit returns exactly once, never while sending is pending
   or an unread refusal still holds its send half.
   */
  lemma {:induction false} ReleasedExactlyOnce(x: Exchange, es: seq<Event>)
    requires Settled(x)
    ensures Settled(After(x, es))
    decreases |es|
  {
    if es != [] {
      ReleasedExactlyOnce(Apply(x, es[0]), es[1..]);
    }
  }

  lemma EveryExchange(pipePending: bool, refused: bool, es: seq<Event>)
    ensures Settled(After(Opened(pipePending, refused), es))
    ensures ResponseOver in es && (!pipePending || exists f :: PipeOver(f) in es) ==>
              After(Opened(pipePending, refused), es).drops == 1
  {
    var x := Opened(pipePending, refused);
    ReleasedExactlyOnce(x, es);
    Endings(x, es);
  }

  /** An ending, once seen, stays. */
  lemma {:induction false} Endings(x: Exchange, es: seq<Event>)
    ensures !x.recv || ResponseOver in es ==> !After(x, es).recv
    ensures !x.pipePending || (exists f :: PipeOver(f) in es) ==> !After(x, es).pipePending
    decreases |es|
  {
    if es != [] {
      Endings(Apply(x, es[0]), es[1..]);
    }
  }

  // ----- declared lengths -----

  /** What is left of a declared length after `size` more bytes, unless they exceed it. */
  function Consume(remaining: Option<nat>, size: nat): (r: Option<Option<nat>>)
    ensures r.None? <==> remaining.Some? && size > remaining.value
    ensures r.Some? && remaining.Some? ==>
              r.value.Some? && r.value.value + size == remaining.value
    ensures r.Some? && remaining.None? ==> r.value.None?
  {
    match remaining
    case None => Some(None)
    case Some(left) => if size <= left then Some(Some(left - size)) else None
  }

  /** `n` bytes are accounted for and `remaining` of the declared length are left. */
  predicate Accounted(declared: Option<nat>, remaining: Option<nat>, n: nat) {
    match declared
    case None => remaining.None?
    case Some(d) => remaining.Some? && n + remaining.value == d
  }

  predicate Exhausted(remaining: Option<nat>) {
    remaining.None? || remaining.value == 0
  }

  // ----- response body -----

  datatype RecvTurn =
    | Blocked
    | Chunk(bytes: seq<byte>)
    | NoMoreData
    | TrailersIn
    | EndOfStream
    | StreamError

  datatype Frame = Pending | Data(bytes: seq<byte>) | Trailers | Over | Failed

  /** A pending answer has a cause: the turns ran out, or the last one blocked. */
  ghost predicate Stalled(turns: seq<RecvTurn>, later: seq<RecvTurn>) {
    later == [] || LastWas(turns, later, Blocked)
  }

  class RecvBody {
    ghost const declared: Option<nat>
    var x: Exchange
    var error: bool
    var remaining: Option<nat>
    var dataDone: bool
    var ended: bool
    /** How the stream answers the coming polls; it blocks once this is used up. */
    var turns: seq<RecvTurn>
    ghost var delivered: seq<byte>
    /** Whether it was read to its end, reported a failure, was dropped by the caller. */
    ghost var clean: bool
    ghost var failed: bool
    ghost var dropped: bool

    /**
     An error waits exactly while receiving was stopped and no poll has reported it; and a body
     has ended only by its complete end or a reported failure.
     */
    ghost predicate Valid()
      reads this
    {
      && Settled(x)
      && Accounted(declared, remaining, |delivered|)
      && (dataDone ==> Exhausted(remaining))
      && (clean ==> dataDone && !x.recv)
      && (x.recv ==> !error && !ended && !dropped)
      && (!x.recv && !dropped ==> ended == !error)
      && (ended ==> clean || failed)
      && (failed ==> ended)
    }

    constructor (declared: Option<nat>, pipePending: bool, refused: bool, turns: seq<RecvTurn>)
      ensures Valid() && this.declared == declared && delivered == [] && !clean && !failed && !dropped
      ensures x == Opened(pipePending, refused) && this.turns == turns && !ended && !error
    {
      this.declared := declared;
      x := Opened(pipePending, refused);
      error, remaining, dataDone, ended := false, declared, false, false;
      this.turns, delivered, clean, failed, dropped := turns, [], false, false, false;
    }

    method NextTurn() returns (t: RecvTurn)
      modifies this`turns
      ensures turns == if old(turns) == [] then [] else old(turns)[1..]
      ensures old(turns) == [] ==> t.Blocked?
      ensures old(turns) != [] ==> t == old(turns)[0]
    {
      if turns == [] {
        return Blocked;
      }
      t := turns[0];
      turns := turns[1..];
    }

    /**
     One frame: data never exceeds the declared length; the body ends, unless it reported a
     failure, only when the delivered bytes equal it; and a stopped body reports its error first.
     */
    method PollFrame() returns (f: Frame)
      requires Valid() && !dropped
      modifies this
      ensures Valid() && !dropped
      ensures f.Data? ==> delivered == old(delivered) + f.bytes
      ensures !f.Data? ==> delivered == old(delivered)
      ensures declared.Some? ==> |delivered| <= declared.value
      ensures f.Trailers? || (f.Over? && !old(failed)) ==>
                clean && (declared.Some? ==> |delivered| == declared.value)
      ensures old(error) ==> f.Failed?
      ensures failed == (old(failed) || f.Failed?)
      ensures old(ended) ==> f.Over? && ended && clean == old(clean)
      ensures !(f.Pending? || f.Data?) ==> x == StopReceiving(old(x)) && ended
      ensures f.Pending? || f.Data? ==> x == old(x) && !old(ended) && clean == old(clean)
      ensures f.Pending? ==> Stalled(old(turns), turns)
    {
      hide Settled, StopReceiving, Left, LastUsed;
      StopSettles(x);
      if ended {
        return Over;
      }
      if !x.recv {
        f := if error then Failed else Over;
        failed := failed || error;
        error, ended := false, true;
        return;
      }
      LeftAll(turns);
      while true
        invariant Valid() && x == old(x) && x.recv && delivered == old(delivered)
        invariant clean == old(clean) && failed == old(failed) && !dropped
        invariant Left(old(turns), turns)
        decreases |turns|
      {
        if turns != [] {
          LeftNext(old(turns), turns);
        }
        var turn := NextTurn();
        if turn.Blocked? {
          return Pending;
        }
        if dataDone {
          if turn.TrailersIn? || turn.EndOfStream? {
            x := StopReceiving(x);
            ended, clean := true, true;
            return if turn.TrailersIn? then Trailers else Over;
          }
          break;
        }
        match turn {
          case Chunk(bytes) =>
            var left := Consume(remaining, |bytes|);
            if left.None? {
              break;
            }
            remaining := left.value;
            delivered := delivered + bytes;
            return Data(bytes);
          case NoMoreData =>
            if !Exhausted(remaining) {
              break;
            }
            dataDone := true;
          case _ => break;
        }
      }
      x := StopReceiving(x);
      ended, failed := true, true;
      f := Failed;
    }

    /** The caller gives the body up; nobody polls it again. */
    method Drop()
      requires Valid() && !dropped
      modifies this`x, this`dropped
      ensures Valid() && dropped && x == StopReceiving(old(x))
    {
      x := StopReceiving(x);
      dropped := true;
    }

    /** Stops a body still being received; the next poll then reports an error. */
    method Cancel()
      requires Valid()
      modifies this`x, this`error
      ensures Valid() && x == StopReceiving(old(x)) && error == (old(error) || old(x.recv))
    {
      if x.recv {
        x := StopReceiving(x);
        error := true;
      }
    }

    /** The pipe guard's drop; a failed pipe cancels a response still being received. */
    method PipeDropped(failing: bool)
      requires Valid()
      modifies this`x, this`error
      ensures Valid() && x == PipeGone(old(x), failing)
      ensures error == (old(error) || (failing && old(x.recv)))
    {
      x := Release(x.(pipePending := false));
      if failing {
        Cancel();
      }
    }
  }

  // ----- a response body over a whole run -----

  datatype BodyEvent = PollIt | CancelIt | DropIt | PipeIs(failing: bool)

  function DataOf(frames: seq<Frame>): seq<byte> {
    if frames == [] then []
    else
      var last := frames[|frames| - 1];
      DataOf(frames[..|frames| - 1]) + (if last.Data? then last.bytes else [])
  }

  lemma DataPush(frames: seq<Frame>, f: Frame)
    ensures DataOf(frames + [f]) == DataOf(frames) + (if f.Data? then f.bytes else [])
  {
    assert (frames + [f])[..|frames|] == frames;
  }

  predicate Ends(f: Frame) { f.Trailers? || f.Over? }

  /** An end seen before any failure comes with exactly the declared bytes. */
  predicate HonestEnds(declared: Option<nat>, frames: seq<Frame>) {
    forall i | 0 <= i < |frames| && Ends(frames[i]) && Failed !in frames[..i] ::
      declared.Some? ==> |DataOf(frames[..i])| == declared.value
  }

  lemma HonestPush(declared: Option<nat>, frames: seq<Frame>, f: Frame)
    requires HonestEnds(declared, frames)
    requires Ends(f) && Failed !in frames && declared.Some? ==> |DataOf(frames)| == declared.value
    ensures HonestEnds(declared, frames + [f])
  {
    var all := frames + [f];
    forall i | 0 <= i < |all| && Ends(all[i]) && Failed !in all[..i]
      ensures declared.Some? ==> |DataOf(all[..i])| == declared.value
    {
      assert all[..i] == frames[..i];
      assert i == |frames| ==> all[..i] == frames;
    }
  }

  /** The frames so far are what the body has delivered. */
  ghost predicate Tells(body: RecvBody, frames: seq<Frame>)
    reads body`delivered, body`failed
  {
    && body.delivered == DataOf(frames)
    && (body.failed <==> Failed in frames)
    && HonestEnds(body.declared, frames)
    && (body.declared.Some? ==> |DataOf(frames)| <= body.declared.value)
  }

  /** One more poll of a body still held. */
  method PollInto(body: RecvBody, frames: seq<Frame>) returns (all: seq<Frame>)
    requires body.Valid() && !body.dropped && Tells(body, frames)
    modifies body
    ensures body.Valid() && !body.dropped && Tells(body, all) && frames <= all
    ensures !body.error && (old(body.error) ==> Failed in all)
    ensures body.x == old(body.x) || body.x == StopReceiving(old(body.x))
  {
    hide Settled, StopReceiving, Accounted, Exhausted, HonestEnds, DataOf;
    var f := body.PollFrame();
    DataPush(frames, f);
    HonestPush(body.declared, frames, f);
    all := frames + [f];
  }

  ghost predicate Running(body: RecvBody, frames: seq<Frame>, stopped: bool, gone: bool)
    reads body
  {
    && body.Valid()
    && Tells(body, frames)
    && body.dropped == gone
    && (gone ==> !body.x.recv)
    && (stopped ==> gone || body.error || Failed in frames)
  }

  /** One event; a dropped body is not polled or dropped again. */
  method Happen(body: RecvBody, e: BodyEvent, frames: seq<Frame>, stopped: bool, gone: bool)
    returns (frames': seq<Frame>, stopped': bool, gone': bool)
    requires Running(body, frames, stopped, gone)
    modifies body
    ensures Running(body, frames', stopped', gone') && frames <= frames'
    ensures gone' == (gone || e.DropIt?)
    ensures stopped' == (stopped || (old(body.x.recv) && (e.CancelIt? || (e.PipeIs? && e.failing))))
    ensures body.x.pipePending == (old(body.x.pipePending) && !e.PipeIs?)
    ensures e.PollIt? && !gone ==> !body.error
  {
    hide Settled, StopReceiving, PipeGone, Accounted, Exhausted, HonestEnds, DataOf;
    StopSettles(body.x);
    frames', stopped', gone' := frames, stopped, gone;
    match e {
      case PollIt =>
        if !gone {
          frames' := PollInto(body, frames);
        }
      case CancelIt =>
        stopped' := stopped || body.x.recv;
        body.Cancel();
      case DropIt =>
        if !gone {
          body.Drop();
          gone' := true;
        }
      case PipeIs(failing) =>
        stopped' := stopped || (failing && body.x.recv);
        PipeGoneSettles(body.x, failing);
        body.PipeDropped(failing);
    }
  }

  predicate PipeSeen(events: seq<BodyEvent>) {
    exists i :: 0 <= i < |events| && events[i].PipeIs?
  }

  /**
   Every run of a response body: polled, cancelled, dropped and left by its pipe in any order.
   The data never exceeds the declared length, an end before any failure is exact, a body
   stopped while it was being received reports a failure on its next poll, and slot and permit
   are given back once when both directions are over.
   */
  method ReplayBody(declared: Option<nat>, pipePending: bool, refused: bool, turns: seq<RecvTurn>,
                    events: seq<BodyEvent>)
    returns (frames: seq<Frame>, x: Exchange, stopped: bool, gone: bool)
    ensures declared.Some? ==> |DataOf(frames)| <= declared.value
    ensures HonestEnds(declared, frames)
    ensures stopped && !gone && events != [] && events[|events| - 1].PollIt? ==> Failed in frames
    ensures gone <==> DropIt in events
    ensures Settled(x) && (gone && (!pipePending || PipeSeen(events)) ==> x.drops == 1 && x.refunds == 1)
  {
    var body := new RecvBody(declared, pipePending, refused, turns);
    frames, stopped, gone := [], false, false;
    var i := 0;
    while i < |events|
      invariant i <= |events| && fresh(body) && body.declared == declared
      invariant Running(body, frames, stopped, gone)
      invariant gone <==> exists j | 0 <= j < i :: events[j].DropIt?
      invariant forall j | 0 <= j < i :: events[j].PipeIs? ==> !body.x.pipePending
      invariant !pipePending ==> !body.x.pipePending
      invariant i > 0 && events[i - 1].PollIt? && !gone ==> !body.error
    {
      hide *;
      frames, stopped, gone := Happen(body, events[i], frames, stopped, gone);
      i := i + 1;
    }
    x := body.x;
  }

  // ----- request body pipe -----

  datatype BodyTurn =
    | NotReady
    | DataFrame(bytes: seq<byte>)
    | TrailersFrame
    | OtherFrame
    | EndOfBody
    | BodyError

  datatype SendTurn = Ok | Wait | Stopped | Broken

  datatype Sent = DataSent(bytes: seq<byte>) | TrailersSent | Fin

  datatype Piped = PipePending | PipeDone | PipeFailed

  function SentData(log: seq<Sent>): seq<byte> {
    if log == [] then []
    else SentData(log[..|log| - 1]) +
         (if log[|log| - 1].DataSent? then log[|log| - 1].bytes else [])
  }

  /** Nothing follows a FIN, and only a FIN follows trailers. */
  predicate Ordered(log: seq<Sent>) {
    && (forall i | 0 <= i < |log| :: log[i].Fin? ==> i == |log| - 1)
    && (forall i, j | 0 <= i < j < |log| :: log[i].TrailersSent? ==> log[j].Fin?)
  }

  const CHUNK: nat := 16 * 1024

  class Pipe {
    ghost const declared: Option<nat>
    var data: Option<seq<byte>>
    var remaining: Option<nat>
    var trailersSent: bool
    var finishing: bool
    var finished: bool
    /** How the body and the stream answer the coming polls. */
    var body: seq<BodyTurn>
    var stream: seq<SendTurn>
    /** Everything handed to the stream, and every DATA byte taken from the body. */
    ghost var log: seq<Sent>
    ghost var taken: seq<byte>
    /** How many body turns were left when the trailers were sent. */
    ghost var afterTrailers: nat

    ghost function Held(): seq<byte>
      reads this
    {
      if data.Some? then data.value else []
    }

    ghost predicate Valid()
      reads this
    {
      && Accounted(declared, remaining, |taken|)
      && SentData(log) + Held() == taken
      && Ordered(log)
      && (finished <==> Fin in log)
      && (trailersSent <==> TrailersSent in log)
      && (finished ==> finishing)
      && (trailersSent || finishing ==> Held() == [] && Exhausted(remaining))
      && (trailersSent ==> |body| <= afterTrailers)
    }

    /** A body frame that ends the pipe with an error. */
    ghost predicate Refuses(frame: BodyTurn)
      reads this
    {
      || frame.BodyError?
      || (frame.DataFrame? && remaining.Some? && |frame.bytes| > remaining.value)
      || ((frame.TrailersFrame? || frame.EndOfBody?) && !Exhausted(remaining))
      || (trailersSent && |body| < afterTrailers && !frame.NotReady? && !frame.EndOfBody?)
    }

    /** Why a call that began with the scripts `s` and `b` answered `r`. */
    ghost predicate Because(r: Piped, s: seq<SendTurn>, b: seq<BodyTurn>)
      reads this
    {
      match r
      case PipeDone => LastWas(s, stream, Stopped) || (finished && LastWas(s, stream, Ok))
      case PipeFailed => LastWas(s, stream, Broken) || (|body| < |b| && Refuses(LastUsed(b, body)))
      case PipePending => stream == [] || body == [] || LastWas(s, stream, Wait) || LastWas(b, body, NotReady)
    }

    /** Both scripts were only used up. */
    ghost predicate Onward(s: seq<SendTurn>, b: seq<BodyTurn>)
      reads this
    {
      Left(s, stream) && Left(b, body)
    }

    lemma Earlier(r: Piped, s: seq<SendTurn>, b: seq<BodyTurn>, s': seq<SendTurn>, b': seq<BodyTurn>)
      requires Left(s, s') && Left(b, b') && Onward(s', b')
      ensures Onward(s, b) && (Because(r, s', b') ==> Because(r, s, b))
    {
      LeftThen(s, s', stream);
      LeftThen(b, b', body);
    }

    constructor (declared: Option<nat>, body: seq<BodyTurn>, stream: seq<SendTurn>)
      ensures Valid() && this.declared == declared && log == [] && taken == []
      ensures this.body == body && this.stream == stream && !finished
    {
      this.declared := declared;
      data, remaining, trailersSent, finishing, finished := None, declared, false, false, false;
      this.body, this.stream, log, taken, afterTrailers := body, stream, [], [], 0;
    }

    method StreamTurn() returns (t: SendTurn)
      modifies this`stream
      ensures Left(old(stream), stream)
      ensures old(stream) == [] ==> t == Wait
      ensures old(stream) != [] ==> LastWas(old(stream), stream, t)
    {
      if stream == [] {
        return Wait;
      }
      LeftAll(stream);
      LeftNext(stream, stream);
      t := stream[0];
      stream := stream[1..];
    }

    method BodyFrame() returns (t: BodyTurn)
      modifies this`body
      ensures Left(old(body), body)
      ensures old(body) == [] ==> t == NotReady
      ensures old(body) != [] ==> LastWas(old(body), body, t)
    {
      if body == [] {
        return NotReady;
      }
      LeftAll(body);
      LeftNext(body, body);
      t := body[0];
      body := body[1..];
    }

    /** A FIN is submitted only for exactly the declared bytes, sent in order, at most once. */
    lemma FinIsExact()
      requires Valid() && Fin in log
      ensures declared.Some? ==> |SentData(log)| == declared.value
      ensures SentData(log) == taken && log[|log| - 1] == Fin
    {
      assert SentData(log) + [] == SentData(log);
    }

    /** Hands the stream one piece, keeping the log ordered. */
    ghost method Record(s: Sent)
      requires Ordered(log) && Fin !in log && (TrailersSent in log ==> s.Fin?)
      modifies this`log
      ensures log == old(log) + [s] && Ordered(log)
      ensures SentData(log) == SentData(old(log)) + (if s.DataSent? then s.bytes else [])
    {
      log := log + [s];
      assert log[..|log| - 1] == old(log);
    }

    method SubmitFin() returns (r: Piped)
      requires Valid() && finishing && !finished
      modifies this
      ensures Valid() && taken == old(taken)
      ensures log == if finished then old(log) + [Fin] else old(log)
      ensures Onward(old(stream), old(body)) && Because(r, old(stream), old(body))
    {
      hide Ordered, SentData, Left, LastUsed;
      LeftAll(body);
      var t := StreamTurn();
      match t
      case Wait => r := PipePending;
      case Stopped => r := PipeDone;
      case Broken => r := PipeFailed;
      case Ok =>
        Record(Fin);
        finished := true;
        ghost var s := stream;
        r := Acknowledged();
        Earlier(r, old(stream), body, s, body);
    }

    /** Waits for the FIN's acknowledgment or a peer stop. */
    method Acknowledged() returns (r: Piped)
      requires finished
      modifies this`stream
      ensures Onward(old(stream), old(body)) && Because(r, old(stream), old(body))
    {
      LeftAll(body);
      var t := StreamTurn();
      match t
      case Wait => r := PipePending;
      case Broken => r := PipeFailed;
      case _ => r := PipeDone;
    }

    /** Sends at most one piece of the held data. */
    method SendHeld() returns (r: Option<Piped>)
      requires Valid() && !finishing && data.Some? && data.value != []
      modifies this
      ensures Valid() && !finishing && finished == old(finished) && taken == old(taken)
      ensures r.None? ==>
                exists piece :: piece != [] && |piece| <= CHUNK && log == old(log) + [DataSent(piece)]
      ensures r.Some? ==> log == old(log) && Because(r.value, old(stream), old(body))
      ensures Onward(old(stream), old(body))
    {
      LeftAll(body);
      var piece := data.value[..Min(|data.value|, CHUNK)];
      var t := StreamTurn();
      match t
      case Stopped => r := Some(PipeDone);
      case Broken => r := Some(PipeFailed);
      case _ =>
        assert !trailersSent;
        assert SentData(log) + data.value == (SentData(log) + piece) + data.value[|piece|..];
        Record(DataSent(piece));
        data := Some(data.value[|piece|..]);
        r := None;
    }

    /** Holds a data frame that fits the declared length. */
    method TakeData(bytes: seq<byte>) returns (r: Option<Piped>)
      requires Valid() && !finishing && !trailersSent && data.None?
      modifies this`remaining, this`taken, this`data
      ensures Valid() && !finishing
      ensures r.None? ==> taken == old(taken) + bytes && data == Some(bytes)
      ensures r.Some? ==> taken == old(taken)
      ensures r.Some? <==> old(remaining).Some? && |bytes| > old(remaining).value
      ensures r.Some? ==> r.value == PipeFailed && remaining == old(remaining)
    {
      var left := Consume(remaining, |bytes|);
      if left.None? {
        return Some(PipeFailed);
      }
      assert SentData(log) + [] == SentData(log);
      remaining := left.value;
      taken := taken + bytes;
      data := Some(bytes);
      r := None;
    }

    /** Sends trailers once the declared length is met. */
    method TakeTrailers() returns (r: Option<Piped>)
      requires Valid() && !finishing && !trailersSent && data.None?
      modifies this`stream, this`log, this`trailersSent, this`afterTrailers
      ensures Valid() && !finishing
      ensures log == if r.None? then old(log) + [TrailersSent] else old(log)
      ensures Left(old(stream), stream)
      ensures r == Some(PipeFailed) ==> LastWas(old(stream), stream, Broken) || !Exhausted(remaining)
      ensures r == Some(PipeDone) ==> LastWas(old(stream), stream, Stopped)
      ensures r != Some(PipePending)
    {
      hide SentData, Left, LastUsed;
      LeftAll(stream);
      if !Exhausted(remaining) {
        return Some(PipeFailed);
      }
      var t := StreamTurn();
      match t
      case Stopped => r := Some(PipeDone);
      case Broken => r := Some(PipeFailed);
      case _ =>
        Record(TrailersSent);
        trailersSent, afterTrailers := true, |body|;
        r := None;
    }

    /** Takes the next body frame; `None` keeps the pipe running. */
    method TakeFrame() returns (r: Option<Piped>)
      requires Valid() && !finishing && Held() == []
      modifies this
      ensures Valid() && finished == old(finished)
      ensures old(log) <= log && old(taken) <= taken
      ensures Onward(old(stream), old(body))
      ensures r.Some? ==> Because(r.value, old(stream), old(body))
    {
      hide Ordered, SentData, Left, LastUsed;
      LeftAll(stream);
      data := None;
      var frame := BodyFrame();
      match frame {
        case NotReady => return Some(PipePending);
        case BodyError => return Some(PipeFailed);
        case EndOfBody =>
          if !Exhausted(remaining) {
            return Some(PipeFailed);
          }
          finishing := true;
          return None;
        case _ =>
      }
      if trailersSent {
        return Some(PipeFailed);
      }
      match frame {
        case DataFrame(bytes) => r := TakeData(bytes);
        case TrailersFrame => r := TakeTrailers();
        case _ => r := None;
      }
    }

    /** One round of the loop, which uses at least two turns of the stream. */
    method Round() returns (r: Option<Piped>)
      requires Valid() && !finishing && !finished
      modifies this
      ensures Valid() && old(log) <= log && old(taken) <= taken && !finished
      ensures Onward(old(stream), old(body))
      ensures r.Some? ==> Because(r.value, old(stream), old(body))
      ensures r.None? ==> stream == [] || |stream| + 2 <= |old(stream)|
    {
      hide Ordered, SentData, LastUsed;
      LeftAll(body);
      var stopped := StreamTurn();
      if stopped == Stopped {
        return Some(PipeDone);
      } else if stopped == Broken {
        return Some(PipeFailed);
      }
      ghost var s := stream;
      var ready := StreamTurn();
      LeftThen(old(stream), s, stream);
      match ready {
        case Wait => return Some(PipePending);
        case Stopped => return Some(PipeDone);
        case Broken => return Some(PipeFailed);
        case Ok =>
      }
      s := stream;
      if data.Some? && data.value != [] {
        r := SendHeld();
      } else {
        r := TakeFrame();
      }
      if r.Some? {
        Earlier(r.value, old(stream), old(body), s, old(body));
      } else {
        Earlier(PipePending, old(stream), old(body), s, old(body));
      }
    }

    /**
     One poll. It is done only after its FIN was submitted and answered or the peer stopped
     the stream, it fails only for a stream error or a body frame it must refuse, and it is
     pending only when the stream or the body is, or after 32 rounds.
     */
    method Poll() returns (r: Piped)
      requires Valid()
      modifies this
      ensures Valid() && old(log) <= log && old(taken) <= taken
      ensures old(finished) ==> log == old(log) && taken == old(taken)
      ensures Onward(old(stream), old(body))
      ensures Because(r, old(stream), old(body)) || (r == PipePending && |stream| + 64 <= |old(stream)|)
    {
      hide Ordered, SentData, Left, LastUsed;
      if finished {
        r := Acknowledged();
        return;
      }
      LeftAll(stream);
      LeftAll(body);
      for i := 0 to 32
        invariant Valid() && !finished && old(log) <= log && old(taken) <= taken
        invariant Onward(old(stream), old(body))
        invariant stream == [] || |stream| + 2 * i <= |old(stream)|
      {
        ghost var s, b := stream, body;
        if finishing {
          r := SubmitFin();
          Earlier(r, old(stream), old(body), s, b);
          return;
        }
        var step := Round();
        if step.Some? {
          Earlier(step.value, old(stream), old(body), s, b);
          return step.value;
        }
        Earlier(PipePending, old(stream), old(body), s, b);
      }
      r := PipePending;
    }
  }
}
