/**
 A sender waiting for Datagram queue space, beside everything else that may happen on the
 connection. Each registry lock section, each operation on the capacity notifier and each
 return of `poll_admit` is one step, so a dequeue may fall between any two of them.
 */
module DatagramWake {
  import opened Bytes
  import opened D = Datagrams
  import opened S = DatagramSchedule
  import Varint

  /** What the sender retries: one payload, or readiness for a payload of the largest size. */
  datatype Attempt = Payload(payload: seq<byte>) | Readiness

  /** The sender's place in `poll_admit`. */
  datatype Place =
    | Outside
    | Tried(attempt: Attempt)
    | Inserted(attempt: Attempt)
    | Listening(attempt: Attempt)
    | Parked(attempt: Attempt)

  /** The `Notified` future: it is ready once `notify_waiters` ran after its creation. */
  datatype Waiter = Absent | Created(calls: nat) | Listed | Notified

  datatype World = World(
    reg: Reg,
    settled: bool,
    owed: nat,
    calls: nat,
    used: set<nat>,
    place: Place,
    waiting: Waiter,
    woken: bool)

  datatype Event =
    | Other(op: Op)
    | Dequeue
    | Notify
    | Poll(attempt: Attempt)
    | Insert
    | Listen
    | Recheck

  ghost function Result(r: Reg, id: nat, a: Attempt): SendResult
    requires Valid(r) && id / 4 < Varint.VARINT_LIMIT
  {
    assert id in r.streams ==> EntryOk(r.streams[id]);
    match a
    case Payload(payload) => TrySend(r, id, payload).1
    case Readiness => ReadyNow(r, id)
  }

  ghost function Attempted(r: Reg, id: nat, a: Attempt): Reg
    requires Valid(r) && id / 4 < Varint.VARINT_LIMIT
  {
    match a
    case Payload(payload) => Act(r, Send(id, payload))
    case Readiness => r
  }

  /** Whether a registry operation ends by notifying the waiting senders. */
  predicate Notifies(r: Reg, op: Op) {
    op.CloseSend? || op.CloseSession? || op.CloseAll? || (op.SetMax? && op.maxSize != r.maxSize)
  }

  ghost predicate Sound(w: World, id: nat) {
    && Valid(w.reg) && w.reg.streams.Keys <= w.used && id / 4 < Varint.VARINT_LIMIT
    && (w.reg.negotiated ==> w.settled)
  }

  /** The peer's settings arrive once; a stream ID is new when it is registered. */
  predicate Enabled(w: World, e: Event) {
    match e
    case Other(op) => S.Allowed(w.used, op) && (op.Negotiate? ==> !w.settled)
    case Dequeue => true
    case Notify => w.owed > 0
    case Poll(_) => w.place.Outside? || w.place.Parked?
    case Insert => w.place.Tried?
    case Listen => w.place.Inserted?
    case Recheck => w.place.Listening?
  }

  /** The attempt is made under the lock; anything but `Full` ends the poll. */
  ghost function Try(w: World, id: nat, a: Attempt, blocked: Place): World
    requires Sound(w, id)
  {
    if Result(w.reg, id, a).Full? then w.(place := blocked)
    else w.(reg := Attempted(w.reg, id, a), place := Outside, waiting := Absent)
  }

  ghost function Step(w: World, id: nat, e: Event): World
    requires Sound(w, id) && Enabled(w, e)
  {
    match e
    case Other(op) =>
      assert Allowed(w.reg.streams.Keys, op);
      w.(reg := Act(w.reg, op),
         settled := w.settled || op.Negotiate?,
         used := if op.Register? then w.used + {op.id} else w.used,
         owed := if Notifies(w.reg, op) then w.owed + 1 else w.owed)
    case Dequeue =>
      var (r, p) := Next(w.reg);
      w.(reg := r, owed := if p.Some? then w.owed + 1 else w.owed)
    case Notify =>
      w.(owed := w.owed - 1, calls := w.calls + 1,
         waiting := if w.waiting.Listed? then Notified else w.waiting,
         woken := w.woken || w.waiting.Listed?)
    case Poll(a) => Try(w.(woken := false), id, a, Tried(a))
    case Insert =>
      w.(place := Inserted(w.place.attempt),
         waiting := if w.waiting.Absent? then Created(w.calls) else w.waiting)
    case Listen =>
      if w.waiting.Notified? || (w.waiting.Created? && w.waiting.calls != w.calls)
      then w.(place := Parked(w.place.attempt), waiting := Absent, woken := true)
      else w.(place := Listening(w.place.attempt), waiting := Listed)
    case Recheck => Try(w, id, w.place.attempt, Parked(w.place.attempt))
  }

  /** A parked sender is listed and its condition unchanged, unless a wake is on its way. */
  ghost predicate Inv(w: World, id: nat) {
    && Sound(w, id)
    && (w.place.Listening? && !w.woken ==> w.waiting.Listed?)
    && (w.place.Inserted? ==> !w.waiting.Absent?)
    && (w.place.Parked? && !w.woken ==>
          w.waiting.Listed? && (w.owed > 0 || Result(w.reg, id, w.place.attempt).Full?))
  }

  /** Sends of others, receives and new sessions only add to the send queues. */
  lemma QueuesGrow(r: Reg, id: nat, op: Op)
    requires Valid(r) && Allowed(r.streams.Keys, op) && id in r.streams
    requires !Notifies(r, op) && !op.Negotiate?
    ensures var r' := Act(r, op);
            && r'.maxSize == r.maxSize && r'.negotiated == r.negotiated && r'.outgoing >= r.outgoing
            && id in r'.streams && r'.streams[id].sendOpen == r.streams[id].sendOpen
            && |r'.streams[id].outgoing| >= |r.streams[id].outgoing|
            && r'.streams[id].outBytes >= r.streams[id].outBytes
  {
    hide Total, Flatten, Rotation, Frame, EntryOk;
  }

  lemma FullStays(r: Reg, id: nat, a: Attempt, op: Op)
    requires Valid(r) && Allowed(r.streams.Keys, op) && id / 4 < Varint.VARINT_LIMIT
    requires Result(r, id, a).Full? && !Notifies(r, op) && !op.Negotiate?
    ensures Valid(Act(r, op)) && Result(Act(r, op), id, a).Full?
  {
    hide Act, Total, Flatten, Rotation, Frame;
    ActValid(r, op);
    QueuesGrow(r, id, op);
    assert EntryOk(r.streams[id]) && EntryOk(Act(r, op).streams[id]);
  }

  lemma OtherInv(w: World, id: nat, op: Op)
    requires Inv(w, id) && Enabled(w, Other(op))
    ensures Inv(Step(w, id, Other(op)), id)
  {
    ActValid(w.reg, op);
    ActKeys(w.reg, op);
    ActNegotiated(w.reg, op);
    if w.place.Parked? && !w.woken && w.owed == 0 && !Notifies(w.reg, op) {
      ResultNegotiated(w.reg, id, w.place.attempt);
      FullStays(w.reg, id, w.place.attempt, op);
    }
    hide Valid, Act, Result, Notifies;
  }

  lemma ActNegotiated(r: Reg, op: Op)
    requires Valid(r) && Allowed(r.streams.Keys, op)
    ensures !op.Negotiate? ==> Act(r, op).negotiated == r.negotiated
  {
    hide Total, Flatten, Rotation, Frame, EntryOk;
  }

  lemma ResultNegotiated(r: Reg, id: nat, a: Attempt)
    requires Valid(r) && id / 4 < Varint.VARINT_LIMIT
    ensures Result(r, id, a).Full? ==> r.negotiated
  {
    hide Total, Flatten, Rotation, Frame;
  }

  lemma DequeueInv(w: World, id: nat)
    requires Inv(w, id)
    ensures Inv(Step(w, id, Dequeue), id)
  {
    hide Total, Flatten, Rotation, EntryOk, Result;
    NextSession(w.reg, 0);
    NextValid(w.reg);
  }

  lemma TryInv(w: World, id: nat, a: Attempt, blocked: Place)
    requires Sound(w, id)
    ensures Sound(Try(w, id, a, blocked), id)
    ensures !Try(w, id, a, blocked).place.Outside? ==> Try(w, id, a, blocked).reg == w.reg
  {
    hide Valid, Act, Result;
    if a.Payload? {
      ActValid(w.reg, Send(id, a.payload));
      ActKeys(w.reg, Send(id, a.payload));
      ActNegotiated(w.reg, Send(id, a.payload));
    }
  }

  lemma StepInv(w: World, id: nat, e: Event)
    requires Inv(w, id) && Enabled(w, e)
    ensures Inv(Step(w, id, e), id)
  {
    hide Valid, Act, Next, Attempted, Result;
    match e {
      case Other(op) => OtherInv(w, id, op);
      case Dequeue => DequeueInv(w, id);
      case Notify =>
      case Poll(a) => TryInv(w.(woken := false), id, a, Tried(a));
      case Insert =>
      case Listen =>
      case Recheck => TryInv(w, id, w.place.attempt, Parked(w.place.attempt));
    }
  }

  ghost predicate Reaches(w: World, id: nat, es: seq<Event>, w': World)
    decreases |es|
  {
    if es == [] then w' == w
    else Sound(w, id) && Enabled(w, es[0]) && Reaches(Step(w, id, es[0]), id, es[1..], w')
  }

  lemma {:induction false} ReachesInv(w: World, id: nat, es: seq<Event>, w': World)
    requires Inv(w, id) && Reaches(w, id, es, w')
    ensures Inv(w', id)
    decreases |es|
  {
    hide Inv, Step;
    if es != [] {
      StepInv(w, id, es[0]);
      ReachesInv(Step(w, id, es[0]), id, es[1..], w');
    }
  }

  function Start(maxSize: Option<nat>): World {
    World.World(Empty(maxSize), false, 0, 0, {}, Outside, Absent, false)
  }

  /**
   A sender that returned Pending and has not been woken still cannot be admitted, unless a
   notification that will wake it is in flight.
   */
  lemma NoLostWakeup(maxSize: Option<nat>, id: nat, es: seq<Event>, w: World)
    requires id / 4 < Varint.VARINT_LIMIT && Reaches(Start(maxSize), id, es, w)
    requires w.place.Parked? && !w.woken
    ensures Sound(w, id)
    ensures Result(w.reg, id, w.place.attempt).Full? || (w.owed > 0 && Step(w, id, Notify).woken)
  {
    ReachesInv(Start(maxSize), id, es, w);
    hide Reaches, Result, Valid;
  }

  /**
   A poll that has not returned Ready queued nothing; one that did queued what the single
   successful attempt admitted.
   */
  lemma PendingQueuesNothing(w: World, id: nat, e: Event)
    requires Sound(w, id) && Enabled(w, e) && !e.Other? && !e.Dequeue?
    ensures !Step(w, id, e).place.Outside? ==> Step(w, id, e).reg == w.reg
    ensures Step(w, id, e).reg != w.reg ==>
              && (e.Poll? || e.Recheck?)
              && var a := if e.Poll? then e.attempt else w.place.attempt;
                 a.Payload? && Step(w, id, e).reg == Enqueue(w.reg, id, Frame(id, a.payload))
  {
    hide Total, Flatten, Rotation, Frame, EntryOk, Enqueue;
  }
}
