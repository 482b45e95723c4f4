/**
 The write side of an HTTP/3 CONNECT tunnel: the transport's pending write, and the command
 channel between the application's half and the pump task, stepped independently.
 */
module ConnectTunnel {
  import opened Bytes

  const CHUNK: nat := 16 * 1024
  const BUDGET: nat := 32

  // ----- the transport's pending write -----

  /** How the backend answers one send: not yet, by reporting `n` written bytes, or with an error. */
  datatype Turn = Blocked | Wrote(n: nat) | Failed

  /** An answer that breaks the stream while `size` bytes are unsent. */
  predicate Breaks(turn: Turn, size: nat) {
    turn.Failed? || (turn.Wrote? && (turn.n == 0 || turn.n > size))
  }

  datatype Poll = Pending | Ready | Error

  class Stream {
    var pending: Option<seq<byte>>
    var quic: seq<byte>
    var fin: bool
    var turns: seq<Turn>

    constructor (turns: seq<Turn>)
      ensures pending == None && quic == [] && !fin && this.turns == turns
    {
      pending, quic, fin, this.turns := None, [], false, turns;
    }

    function Unsent(): seq<byte>
      reads this
    {
      if pending.Some? then pending.value else []
    }

    /** Drains the pending write; at most 32 sends per poll. A send of nothing is an error. */
    method PollReady() returns (r: Poll)
      modifies this
      ensures quic + Unsent() == old(quic + Unsent()) && fin == old(fin)
      ensures r.Ready? ==> pending.None?
      ensures r.Pending? ==> Unsent() != []
      ensures Left(old(turns), turns) && |old(turns)| <= |turns| + BUDGET
      ensures r.Pending? ==>
                turns == [] || LastWas(old(turns), turns, Blocked) || |old(turns)| == |turns| + BUDGET
      ensures r.Error? ==> |turns| < |old(turns)| && Breaks(LastUsed(old(turns), turns), |Unsent()|)
    {
      LeftAll(turns);
      if pending.Some? {
        var buf := pending.value;
        var budget := 0;
        while buf != []
          invariant pending == Some(buf) && quic + buf == old(quic + Unsent()) && fin == old(fin)
          invariant 0 <= budget <= BUDGET && (budget == BUDGET ==> buf == []) && |old(turns)| == |turns| + budget
          invariant Left(old(turns), turns)
          decreases |buf|
        {
          if turns == [] {
            return Pending;
          }
          LeftNext(old(turns), turns);
          var turn := turns[0];
          turns := turns[1..];
          match turn {
            case Blocked => return Pending;
            case Failed => return Error;
            case Wrote(n) =>
              if n == 0 || n > |buf| {
                return Error;
              }
              assert quic + buf == quic + buf[..n] + buf[n..];
              quic := quic + buf[..n];
              buf := buf[n..];
              pending := Some(buf);
          }
          budget := budget + 1;
          if budget == BUDGET && buf != [] {
            return Pending;
          }
        }
        assert quic + buf == quic;
      }
      assert quic + [] == quic;
      pending := None;
      r := Ready;
    }

    method SendData(data: seq<byte>) returns (ok: bool)
      modifies this
      ensures ok <==> old(pending).None?
      ensures quic == old(quic) && fin == old(fin)
      ensures Unsent() == if ok then data else old(Unsent())
    {
      if pending.Some? {
        return false;
      }
      pending := Some(data);
      ok := true;
    }

    /** The FIN is submitted only once nothing is pending. */
    method PollFinish() returns (r: Poll)
      modifies this
      ensures quic + Unsent() == old(quic + Unsent())
      ensures r.Ready? ==> fin && pending.None?
      ensures !r.Ready? ==> fin == old(fin)
    {
      r := PollReady();
      if r.Ready? {
        fin := true;
      }
    }
  }

  // ----- the tunnel -----

  datatype Command = Data(bytes: seq<byte>) | Flush(id: nat) | Finish(id: nat)

  datatype Barrier = Barrier(finish: bool, id: nat)

  datatype App = App(pending: Option<Barrier>, shutdown: bool, accepted: seq<byte>, issued: nat)

  datatype Pump = Pump(running: bool, finish: Option<nat>, unsent: seq<byte>)

  datatype Wire = Wire(quic: seq<byte>, fin: bool, acked: set<nat>)

  /** The command channel has room for one. */
  datatype Tunnel = Tunnel(app: App, queue: Option<Command>, pump: Pump, wire: Wire)

  const START: Tunnel :=
    Tunnel(App(None, false, [], 0), None, Pump(true, None, []), Wire([], false, {}))

  /** `poll_ack`: the pump's answer, or that it is gone. */
  function PollAck(t: Tunnel): (Tunnel, Poll) {
    if t.app.pending.None? then (t, Ready)
    else
      var b := t.app.pending.value;
      if b.id in t.wire.acked then
        (t.(app := t.app.(pending := None, shutdown := t.app.shutdown || b.finish)), Ready)
      else if t.pump.running then (t, Pending)
      else (t.(app := t.app.(pending := None)), Error)
  }

  /** The second half of `poll_barrier`, once nothing is awaited. */
  function Issue(t: Tunnel, finish: bool): (Tunnel, Poll) {
    if t.app.shutdown then (t, Ready)
    else if !t.pump.running then (t, Error)
    else if t.queue.Some? then (t, Pending)
    else
      var id := t.app.issued;
      (t.(queue := Some(if finish then Finish(id) else Flush(id)),
          app := t.app.(pending := Some(Barrier(finish, id)), issued := id + 1)), Pending)
  }

  function PollBarrier(t: Tunnel, finish: bool): (Tunnel, Poll) {
    if t.app.pending.None? then Issue(t, finish)
    else
      var (t', r) := PollAck(t);
      if !r.Ready? || !finish || t.app.pending.value.finish then (t', r)
      else Issue(t', finish)
  }

  /** `poll_write`: how many bytes were taken. */
  function PollWrite(t: Tunnel, buf: seq<byte>): (Tunnel, Poll, nat) {
    var (t', r) := PollAck(t);
    if !r.Ready? then (t', r, 0)
    else if t'.app.shutdown then (t', Error, 0)
    else if buf == [] then (t', Ready, 0)
    else if !t'.pump.running then (t', Error, 0)
    else if t'.queue.Some? then (t', Pending, 0)
    else
      var n := Min(|buf|, CHUNK);
      (t'.(queue := Some(Data(buf[..n])), app := t'.app.(accepted := t'.app.accepted + buf[..n])), Ready, n)
  }

  datatype Event =
    | AppWrite(buf: seq<byte>)
    | AppBarrier(finish: bool)
    | AppAck
    | PumpSend(n: nat)
    | PumpReceive
    | PumpFinish
    | PumpEnd

  /** The pump takes a command only with nothing left to send and no finish under way. */
  predicate Enabled(t: Tunnel, e: Event) {
    match e
    case AppWrite(_) => true
    case AppBarrier(_) => true
    case AppAck => true
    case PumpSend(n) => t.pump.running && 0 < n <= |t.pump.unsent|
    case PumpReceive => t.pump.running && t.pump.finish.None? && !t.wire.fin && t.pump.unsent == [] && t.queue.Some?
    case PumpFinish => t.pump.running && t.pump.finish.Some? && t.pump.unsent == []
    case PumpEnd => t.pump.running
  }

  function Receive(t: Tunnel): Tunnel
    requires t.queue.Some?
  {
    var t' := t.(queue := None);
    match t.queue.value
    case Data(bytes) => t'.(pump := t.pump.(unsent := bytes))
    case Flush(id) => t'.(wire := t.wire.(acked := t.wire.acked + {id}))
    case Finish(id) => t'.(pump := t.pump.(finish := Some(id)))
  }

  function Step(t: Tunnel, e: Event): Tunnel
    requires Enabled(t, e)
  {
    match e
    case AppWrite(buf) => PollWrite(t, buf).0
    case AppBarrier(finish) => PollBarrier(t, finish).0
    case AppAck => PollAck(t).0
    case PumpSend(n) =>
      t.(wire := t.wire.(quic := t.wire.quic + t.pump.unsent[..n]), pump := t.pump.(unsent := t.pump.unsent[n..]))
    case PumpReceive => Receive(t)
    case PumpFinish =>
      t.(wire := t.wire.(fin := true, acked := t.wire.acked + {t.pump.finish.value}), pump := t.pump.(finish := None))
    case PumpEnd => t.(pump := t.pump.(running := false))
  }

  // ----- invariants -----

  function Waiting(t: Tunnel): seq<byte> {
    if t.queue.Some? && t.queue.value.Data? then t.queue.value.bytes else []
  }

  /** Accepted bytes are on the wire, in the pump, or in the channel, once and in order. */
  predicate Conserved(t: Tunnel) {
    if t.pump.running then t.wire.quic + t.pump.unsent + Waiting(t) == t.app.accepted
    else t.wire.quic <= t.app.accepted
  }

  predicate Issued(t: Tunnel, id: nat, finish: bool) {
    if finish then t.queue == Some(Finish(id)) || t.pump.finish == Some(id)
    else t.queue == Some(Flush(id))
  }

  /** A barrier in the channel or the pump is the one the application awaits. */
  predicate Awaited(t: Tunnel) {
    && (t.app.pending.Some? ==>
          var b := t.app.pending.value;
          && b.id < t.app.issued && !t.app.shutdown
          && (b.id in t.wire.acked ==> t.wire.quic == t.app.accepted && (b.finish ==> t.wire.fin))
          && (b.id !in t.wire.acked && t.pump.running ==> Issued(t, b.id, b.finish) && Waiting(t) == []))
    && (t.pump.running && t.queue.Some? && !t.queue.value.Data? ==>
          t.app.pending == Some(Barrier(t.queue.value.Finish?, t.queue.value.id)) && t.queue.value.id !in t.wire.acked)
    && (t.pump.running && t.pump.finish.Some? ==>
          && t.app.pending == Some(Barrier(true, t.pump.finish.value))
          && t.queue.None? && t.pump.finish.value !in t.wire.acked)
    && (forall id | id in t.wire.acked :: id < t.app.issued)
    && (t.queue.Some? && t.queue.value.Data? ==> t.queue.value.bytes != [])
  }

  predicate Closing(t: Tunnel) {
    && (t.app.shutdown ==> t.wire.fin)
    && (t.wire.fin ==>
          && t.wire.quic == t.app.accepted
          && t.pump.unsent == [] && Waiting(t) == []
          && (t.app.shutdown ||
              (t.app.pending.Some? && t.app.pending.value.finish && t.app.pending.value.id in t.wire.acked)))
  }

  predicate Inv(t: Tunnel) {
    Conserved(t) && Awaited(t) && Closing(t)
  }

  lemma AckInv(t: Tunnel)
    requires Inv(t)
    ensures Inv(PollAck(t).0)
    ensures PollAck(t).1.Ready? ==> PollAck(t).0.app.pending.None?
  {
  }

  lemma IssueInv(t: Tunnel, finish: bool)
    requires Inv(t) && t.app.pending.None?
    ensures Inv(Issue(t, finish).0)
  {
  }

  lemma WriteInv(t: Tunnel, buf: seq<byte>)
    requires Inv(t)
    ensures Inv(PollWrite(t, buf).0)
  {
    AckInv(t);
    var (t', r) := PollAck(t);
    hide PollAck;
    if r.Ready? && t'.queue.None? {
      assert t'.wire.quic + t'.pump.unsent + [] == t'.wire.quic + t'.pump.unsent;
    }
  }

  lemma BarrierInv(t: Tunnel, finish: bool)
    requires Inv(t)
    ensures Inv(PollBarrier(t, finish).0)
  {
    AckInv(t);
    if t.app.pending.None? {
      IssueInv(t, finish);
    } else if PollAck(t).1.Ready? {
      IssueInv(PollAck(t).0, finish);
    }
    hide PollAck, Issue, Inv;
  }

  lemma PumpInv(t: Tunnel, e: Event)
    requires Inv(t) && Enabled(t, e) && (e.PumpSend? || e.PumpReceive? || e.PumpFinish? || e.PumpEnd?)
    ensures Inv(Step(t, e))
  {
    if e.PumpSend? {
      var u := t.pump.unsent;
      assert t.wire.quic + u == t.wire.quic + u[..e.n] + u[e.n..];
    }
  }

  lemma StepInv(t: Tunnel, e: Event)
    requires Inv(t) && Enabled(t, e)
    ensures Inv(Step(t, e))
  {
    match e {
      case AppWrite(buf) => WriteInv(t, buf);
      case AppBarrier(finish) => BarrierInv(t, finish);
      case AppAck => AckInv(t);
      case _ => PumpInv(t, e);
    }
    hide Inv;
  }

  // ----- runs -----

  predicate Reaches(t: Tunnel, es: seq<Event>, t': Tunnel)
    decreases |es|
  {
    if es == [] then t' == t
    else Enabled(t, es[0]) && Reaches(Step(t, es[0]), es[1..], t')
  }

  lemma {:induction false} ReachesInv(t: Tunnel, es: seq<Event>, t': Tunnel)
    requires Inv(t) && Reaches(t, es, t')
    ensures Inv(t')
    decreases |es|
  {
    hide Inv, Step, Enabled;
    if es != [] {
      StepInv(t, es[0]);
      ReachesInv(Step(t, es[0]), es[1..], t');
    }
  }

  /** In every run, what QUIC took is a prefix of what was accepted, and all of it before a FIN. */
  lemma OnceInOrder(es: seq<Event>, t: Tunnel)
    requires Reaches(START, es, t)
    ensures t.wire.quic <= t.app.accepted
    ensures t.wire.fin ==> t.wire.quic == t.app.accepted
  {
    ReachesInv(START, es, t);
    hide Reaches;
    var rest := t.pump.unsent + Waiting(t);
    assert t.wire.quic + t.pump.unsent + Waiting(t) == t.wire.quic + rest;
  }

  /**
   A flush that returns Ok returns with every accepted byte taken by the transport; a shutdown
   that returns Ok returns with the FIN submitted too, also when a flush was pending.
   */
  lemma BarrierMeans(es: seq<Event>, t: Tunnel, finish: bool)
    requires Reaches(START, es, t) && PollBarrier(t, finish).1.Ready?
    ensures var t' := PollBarrier(t, finish).0;
            t'.wire.quic == t'.app.accepted && (finish ==> t'.wire.fin && t'.app.shutdown)
  {
    ReachesInv(START, es, t);
    hide Reaches;
  }

  /** A shutdown behind a completed flush puts the finish into the channel at once if it has room. */
  lemma FinishFollowsFlush(es: seq<Event>, t: Tunnel)
    requires Reaches(START, es, t) && t.pump.running
    requires t.app.pending.Some? && !t.app.pending.value.finish && t.app.pending.value.id in t.wire.acked
    ensures var (t', r) := PollBarrier(t, true);
            r.Pending? && t'.queue == Some(Finish(t.app.issued)) && t'.app.pending == Some(Barrier(true, t.app.issued))
  {
    ReachesInv(START, es, t);
    hide Reaches;
  }

  /** Once the FIN is submitted, every later write is refused and nothing more is sent. */
  lemma {:induction false} NothingAfterFin(t: Tunnel, es: seq<Event>, t': Tunnel)
    requires Inv(t) && t.wire.fin && Reaches(t, es, t')
    ensures t'.wire.fin && t'.wire.quic == t.wire.quic && t'.app.accepted == t.app.accepted
    decreases |es|
  {
    if es != [] {
      FinStays(t, es[0]);
      StepInv(t, es[0]);
      hide Inv, Step, Enabled;
      NothingAfterFin(Step(t, es[0]), es[1..], t');
    }
  }

  lemma FinStays(t: Tunnel, e: Event)
    requires Inv(t) && t.wire.fin && Enabled(t, e)
    ensures Step(t, e).wire.fin && Step(t, e).wire.quic == t.wire.quic && Step(t, e).app.accepted == t.app.accepted
    ensures forall buf: seq<byte> :: PollWrite(t, buf).1 == Error
  {
  }
}
