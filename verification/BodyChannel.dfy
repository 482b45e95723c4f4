/**
 The one-slot channel that carries an HTTP/1 response body from the connection to the
 application, with the body decoder before it and the body's remaining length after it. Each
 lock section, each waker registration and each wake is one step; the two ends interleave
 freely.
 */
module BodyChannel {
  import opened Bytes

  // ----- declared lengths -----

  /** A length as the source stores it: two sentinels above every real length. */
  type DecodedLength = n: nat | n <= U64_MAX

  const CLOSE_DELIMITED: DecodedLength := U64_MAX
  const CHUNKED: DecodedLength := U64_MAX - 1
  const MAX_LEN: DecodedLength := U64_MAX - 2

  predicate Sized(len: DecodedLength) {
    len != CHUNKED && len != CLOSE_DELIMITED
  }

  function CheckedNew(len: nat): (r: Option<DecodedLength>)
    ensures r.Some? <==> len <= MAX_LEN
    ensures r.Some? ==> r.value == len && Sized(r.value)
  {
    if len <= MAX_LEN then Some(len) else None
  }

  /** Subtracts from a known length; the caller owes the length. */
  function SubIf(len: DecodedLength, amount: nat): (r: DecodedLength)
    requires Sized(len) ==> amount <= len
    ensures Sized(len) <==> Sized(r)
    ensures Sized(len) ==> r + amount == len
  {
    if Sized(len) then len - amount else len
  }

  // ----- state -----

  datatype Item = Data(bytes: seq<byte>) | Failure

  datatype SenderAt =
    | Resting
    | Checking
    | Granted
    | Holding(chunk: seq<byte>)
    | Parked
    | Refused
    | Waking
    | Leaving
    | Gone

  datatype ReceiverAt = Away | Locking | Owing(next: ReceiverAt) | Waiting | Terminated | Departing | Dropped

  /** The state under the lock. */
  datatype Shared = Shared(
    item: Option<Item>,
    pendingError: bool,
    trailers: Option<nat>,
    senderOpen: bool,
    receiverOpen: bool,
    want: bool)

  /** A waker: registered, and called since the last poll began. */
  datatype Waker = Waker(listed: bool, woken: bool)

  function Enlisted(): Waker { Waker(true, false) }

  function Called(w: Waker): Waker { if w.listed then Waker(false, true) else w }

  datatype History = History(
    sent: seq<seq<byte>>,
    got: seq<seq<byte>>,
    trailersSent: Option<nat>,
    trailersGot: Option<nat>)

  datatype Lengths = Lengths(decoder: DecodedLength, incoming: DecodedLength)

  datatype Channel = Channel(
    shared: Shared,
    sender: SenderAt,
    receiver: ReceiverAt,
    senderWaker: Waker,
    receiverWaker: Waker,
    reported: bool,
    lengths: Lengths,
    history: History)

  function Start(wanter: bool, length: DecodedLength): (c: Channel)
    ensures Inv(c)
  {
    Channel(Shared(None, false, None, true, true, !wanter), Resting, Away, Waker(false, false), Waker(false, false),
            false, Lengths(length, length), History([], [], None, None))
  }

  datatype SenderOp =
    | Register
    | Check
    | Decode(chunk: seq<byte>)
    | SendData
    | SendTrailers(fields: nat)
    | SendError
    | WakeReceiver
    | DropSender

  datatype ReceiverOp = Enroll | Take | WakeSender | TakeTrailers | DropReceiver

  datatype Event = S(s: SenderOp) | R(r: ReceiverOp)

  function Slot(s: Shared): seq<seq<byte>> {
    if s.item.Some? && s.item.value.Data? then [s.item.value.bytes] else []
  }

  /** Bytes decoded and not yet taken by the application. */
  function Between(s: Shared, at: SenderAt): nat {
    (if at.Holding? then |at.chunk| else 0)
    + (if s.item.Some? && s.item.value.Data? then |s.item.value.bytes| else 0)
  }

  // ----- the sending end -----

  /** A sized decoder reads a nonempty piece of at most what remains. */
  predicate SenderEnabled(c: Channel, op: SenderOp) {
    match op
    case Register => c.sender.Resting? || c.sender.Parked? || c.sender.Granted?
    case Check => c.sender.Checking?
    case Decode(chunk) =>
      c.sender.Granted? && chunk != [] && (Sized(c.lengths.decoder) ==> |chunk| <= c.lengths.decoder)
    case SendData => c.sender.Holding?
    case SendTrailers(_) => c.sender.Granted? && c.history.trailersSent.None?
    case SendError => c.sender.Resting? || c.sender.Granted? || c.sender.Parked?
    case WakeReceiver => c.sender.Waking? || c.sender.Leaving?
    case DropSender => c.sender.Resting? || c.sender.Granted? || c.sender.Parked? || c.sender.Refused?
  }

  predicate MaySend(s: Shared) { s.want && s.item.None? && !s.pendingError }

  function ApplySender(c: Channel, op: SenderOp): Channel
    requires SenderEnabled(c, op)
  {
    var s := c.shared;
    match op
    case Register => c.(sender := Checking, senderWaker := Enlisted())
    case Check =>
      c.(sender := if !s.receiverOpen then Refused else if MaySend(s) then Granted else Parked)
    case Decode(chunk) =>
      c.(sender := Holding(chunk), lengths := c.lengths.(decoder := SubIf(c.lengths.decoder, |chunk|)))
    case SendData =>
      if !s.receiverOpen || !MaySend(s) then c.(sender := Refused)
      else c.(shared := s.(item := Some(Data(c.sender.chunk))), sender := Waking,
              history := c.history.(sent := c.history.sent + [c.sender.chunk]))
    case SendTrailers(fields) =>
      if !s.receiverOpen then c.(sender := Refused)
      else c.(shared := s.(trailers := Some(fields)), sender := Waking,
              history := c.history.(trailersSent := Some(fields)))
    case SendError =>
      if !s.receiverOpen then c.(sender := Resting)
      else c.(shared := if s.item.None? then s.(item := Some(Failure)) else s.(pendingError := true),
              sender := Waking, reported := true)
    case WakeReceiver =>
      c.(receiverWaker := Called(c.receiverWaker), sender := if c.sender.Leaving? then Gone else Resting)
    case DropSender => c.(shared := s.(senderOpen := false), sender := if s.receiverOpen then Leaving else Gone)
  }

  // ----- the receiving end -----

  predicate ReceiverEnabled(c: Channel, op: ReceiverOp) {
    match op
    case Enroll => c.receiver.Away? || c.receiver.Waiting?
    case Take => c.receiver.Locking?
    case WakeSender => c.receiver.Owing? || c.receiver.Departing?
    case TakeTrailers => c.receiver.Terminated?
    case DropReceiver => c.receiver.Away? || c.receiver.Waiting? || c.receiver.Terminated?
  }

  function After(owes: bool, next: ReceiverAt): ReceiverAt {
    if owes then Owing(next) else next
  }

  predicate CanTake(c: Channel) {
    c.shared.item.Some? && c.shared.item.value.Data? && Sized(c.lengths.incoming) ==>
      |c.shared.item.value.bytes| <= c.lengths.incoming
  }

  /** One lock section of `poll_next`: the slot first, then a queued error, then the end. */
  function Taken(c: Channel): Channel
    requires CanTake(c)
  {
    var s := c.shared;
    var next := s.(want := true);
    if s.item.Some? then
      c.(shared := next.(item := None), receiver := After(s.senderOpen, Away),
         history := c.history.(got := c.history.got + Slot(s)),
         lengths := if s.item.value.Data?
                    then c.lengths.(incoming := SubIf(c.lengths.incoming, |s.item.value.bytes|))
                    else c.lengths)
    else if s.pendingError then c.(shared := next.(pendingError := false), receiver := After(!s.want, Away))
    else c.(shared := next, receiver := After(!s.want, if s.senderOpen then Waiting else Terminated))
  }

  function ApplyReceiver(c: Channel, op: ReceiverOp): Channel
    requires ReceiverEnabled(c, op) && (op.Take? ==> CanTake(c))
  {
    var s := c.shared;
    match op
    case Enroll => c.(receiver := Locking, receiverWaker := Enlisted())
    case Take => Taken(c)
    case WakeSender =>
      c.(receiver := if c.receiver.Owing? then c.receiver.next else Dropped, senderWaker := Called(c.senderWaker))
    case TakeTrailers =>
      c.(shared := s.(trailers := None),
         history := if s.trailers.Some? then c.history.(trailersGot := s.trailers) else c.history)
    case DropReceiver =>
      c.(shared := s.(receiverOpen := false), receiver := if s.senderOpen then Departing else Dropped)
  }

  // ----- invariants -----

  /** Where the two tasks are fits the open flags. */
  predicate Placed(c: Channel) {
    && (c.shared.senderOpen <==> !c.sender.Leaving? && !c.sender.Gone?)
    && (!c.shared.receiverOpen <==> c.receiver.Departing? || c.receiver.Dropped?)
    && (c.receiver.Owing? ==> c.receiver.next.Away? || c.receiver.next.Waiting? || c.receiver.next.Terminated?)
    && (c.sender.Granted? || c.sender.Holding? ==> c.shared.receiverOpen ==> MaySend(c.shared))
  }

  /** What was taken, then the slot, is what was accepted; a terminated body is complete. */
  predicate Delivered(c: Channel) {
    var h := c.history;
    && h.got + Slot(c.shared) == h.sent
    && (c.receiver.Terminated? || c.receiver == Owing(Terminated) ==> c.shared.item.None? && !c.shared.senderOpen)
    && (c.shared.trailers.Some? ==> c.shared.trailers == h.trailersSent)
    && (h.trailersGot.Some? ==> h.trailersGot == h.trailersSent && !c.shared.senderOpen && c.shared.item.None?)
  }

  /** The remaining length equals what the decoder still owes and what is on the way. */
  predicate Lockstep(c: Channel) {
    && (Sized(c.lengths.incoming) <==> Sized(c.lengths.decoder))
    && (c.shared.receiverOpen && Sized(c.lengths.incoming) ==>
          c.lengths.incoming == c.lengths.decoder + Between(c.shared, c.sender))
  }

  /** A waiting receiver sees nothing new, or a wake is on its way. */
  predicate ReceiverAwake(c: Channel) {
    && (c.receiver.Locking? ==> c.receiverWaker.listed || c.receiverWaker.woken)
    && ((c.receiver.Waiting? || c.receiver == Owing(Waiting)) && !c.receiverWaker.woken ==>
          && c.receiverWaker.listed
          && (|| c.sender.Waking? || c.sender.Leaving?
              || (c.shared.item.None? && !c.shared.pendingError && c.shared.senderOpen)))
  }

  /** A parked sender still may not send, or a wake is on its way, unless it reported an error. */
  predicate SenderAwake(c: Channel) {
    && (c.shared.pendingError ==> c.reported)
    && (c.sender.Checking? ==> c.senderWaker.listed || c.senderWaker.woken)
    && (c.sender.Parked? && !c.senderWaker.woken && !c.reported ==>
          && c.senderWaker.listed
          && (|| c.receiver.Owing? || c.receiver.Departing?
              || (c.shared.receiverOpen && !(c.shared.want && c.shared.item.None?))))
  }

  predicate Inv(c: Channel) {
    Placed(c) && Delivered(c) && Lockstep(c) && ReceiverAwake(c) && SenderAwake(c)
  }

  lemma SenderPlaced(c: Channel, op: SenderOp)
    requires Placed(c) && SenderEnabled(c, op)
    ensures Placed(ApplySender(c, op))
  {
    hide Sized;
  }

  lemma SenderDelivered(c: Channel, op: SenderOp)
    requires Placed(c) && Delivered(c) && SenderEnabled(c, op)
    ensures Delivered(ApplySender(c, op))
  {
    hide Sized;
  }

  lemma SenderLockstep(c: Channel, op: SenderOp)
    requires Placed(c) && Lockstep(c) && SenderEnabled(c, op)
    ensures Lockstep(ApplySender(c, op))
  {
    hide Sized;
  }

  lemma SenderWakes(c: Channel, op: SenderOp)
    requires Placed(c) && ReceiverAwake(c) && SenderAwake(c) && SenderEnabled(c, op)
    ensures ReceiverAwake(ApplySender(c, op)) && SenderAwake(ApplySender(c, op))
  {
    hide Sized;
  }

  lemma SenderInv(c: Channel, op: SenderOp)
    requires Inv(c) && SenderEnabled(c, op)
    ensures Inv(ApplySender(c, op))
  {
    hide ApplySender, Placed, Delivered, Lockstep, ReceiverAwake, SenderAwake;
    SenderPlaced(c, op);
    SenderDelivered(c, op);
    SenderLockstep(c, op);
    SenderWakes(c, op);
  }

  /** The slot never holds more than the remaining length, so taking it cannot underflow. */
  lemma NoUnderflow(c: Channel)
    requires Inv(c) && c.receiver.Locking?
    ensures CanTake(c)
  {
  }

  lemma ReceiverPlaced(c: Channel, op: ReceiverOp)
    requires Placed(c) && ReceiverEnabled(c, op) && (op.Take? ==> CanTake(c))
    ensures Placed(ApplyReceiver(c, op))
  {
    hide Sized;
  }

  lemma ReceiverDelivered(c: Channel, op: ReceiverOp)
    requires Placed(c) && Delivered(c) && ReceiverEnabled(c, op) && (op.Take? ==> CanTake(c))
    ensures Delivered(ApplyReceiver(c, op))
  {
    hide Sized;
  }

  lemma ReceiverLockstep(c: Channel, op: ReceiverOp)
    requires Placed(c) && Lockstep(c) && ReceiverEnabled(c, op) && (op.Take? ==> CanTake(c))
    ensures Lockstep(ApplyReceiver(c, op))
  {
    hide Sized;
  }

  lemma ReceiverWakes(c: Channel, op: ReceiverOp)
    requires Placed(c) && ReceiverAwake(c) && SenderAwake(c)
    requires ReceiverEnabled(c, op) && (op.Take? ==> CanTake(c))
    ensures ReceiverAwake(ApplyReceiver(c, op)) && SenderAwake(ApplyReceiver(c, op))
  {
    hide Sized;
  }

  lemma ReceiverInv(c: Channel, op: ReceiverOp)
    requires Inv(c) && ReceiverEnabled(c, op)
    ensures op.Take? ==> CanTake(c)
    ensures Inv(ApplyReceiver(c, op))
  {
    if op.Take? {
      NoUnderflow(c);
    }
    hide ApplyReceiver, Placed, Delivered, Lockstep, ReceiverAwake, SenderAwake;
    ReceiverPlaced(c, op);
    ReceiverDelivered(c, op);
    ReceiverLockstep(c, op);
    ReceiverWakes(c, op);
  }

  // ----- runs -----

  predicate Enabled(c: Channel, e: Event) {
    match e
    case S(op) => SenderEnabled(c, op)
    case R(op) => ReceiverEnabled(c, op)
  }

  function Step(c: Channel, e: Event): (c': Channel)
    requires Inv(c) && Enabled(c, e)
    ensures Inv(c')
  {
    match e
    case S(op) => SenderInv(c, op); ApplySender(c, op)
    case R(op) => ReceiverInv(c, op); ApplyReceiver(c, op)
  }

  predicate Reaches(c: Channel, es: seq<Event>, c': Channel)
    requires Inv(c)
    decreases |es|
  {
    if es == [] then c' == c
    else Enabled(c, es[0]) && Reaches(Step(c, es[0]), es[1..], c')
  }

  lemma {:induction false} ReachesInv(c: Channel, es: seq<Event>, c': Channel)
    requires Inv(c) && Reaches(c, es, c')
    ensures Inv(c')
    decreases |es|
  {
    hide Inv, Step, Enabled;
    if es != [] {
      ReachesInv(Step(c, es[0]), es[1..], c');
    }
  }

  /**
   In every run, the application gets the accepted data in order and nothing else; the end and
   the trailers come only once it has all of it; and a sized body's remaining length never
   underflows.
   */
  lemma InOrderAndComplete(wanter: bool, length: DecodedLength, es: seq<Event>, c: Channel)
    requires Reaches(Start(wanter, length), es, c)
    ensures c.history.got <= c.history.sent
    ensures c.receiver.Terminated? ==> c.history.got == c.history.sent
    ensures c.history.trailersGot.Some? ==>
              c.history.got == c.history.sent && c.history.trailersGot == c.history.trailersSent
    ensures c.receiver.Locking? ==> CanTake(c)
    ensures Sized(length) && c.shared.receiverOpen ==>
              c.lengths.incoming == c.lengths.decoder + Between(c.shared, c.sender)
  {
    SizedForGood(Start(wanter, length), es, c);
    ReachesInv(Start(wanter, length), es, c);
    hide Reaches;
  }

  lemma {:induction false} SizedForGood(c: Channel, es: seq<Event>, c': Channel)
    requires Inv(c) && Reaches(c, es, c')
    ensures Sized(c.lengths.incoming) <==> Sized(c'.lengths.incoming)
    decreases |es|
  {
    if es != [] {
      SizedStep(c, es[0]);
      hide Inv, Step, Enabled, Sized;
      SizedForGood(Step(c, es[0]), es[1..], c');
    }
  }

  lemma SizedStep(c: Channel, e: Event)
    requires Inv(c) && Enabled(c, e)
    ensures Sized(c.lengths.incoming) <==> Sized(Step(c, e).lengths.incoming)
  {
    hide Sized;
  }

  /**
   In every run, a receiver that returned Pending and was not woken has nothing to see unless
   the sender's wake is in flight; and a sender that returned Pending, was not woken and has
   not reported an error still may not send unless the receiver's wake is in flight.
   */
  lemma NoMissedWakeup(wanter: bool, length: DecodedLength, es: seq<Event>, c: Channel)
    requires Reaches(Start(wanter, length), es, c)
    ensures Inv(c)
    ensures c.receiver.Waiting? && !c.receiverWaker.woken ==>
              || (Enabled(c, S(WakeReceiver)) && Step(c, S(WakeReceiver)).receiverWaker.woken)
              || (c.shared.item.None? && !c.shared.pendingError && c.shared.senderOpen)
    ensures c.sender.Parked? && !c.senderWaker.woken && !c.reported ==>
              || (Enabled(c, R(WakeSender)) && Step(c, R(WakeSender)).senderWaker.woken)
              || (c.shared.receiverOpen && !MaySend(c.shared))
  {
    ReachesInv(Start(wanter, length), es, c);
    hide Reaches, Sized, Delivered;
  }
}
