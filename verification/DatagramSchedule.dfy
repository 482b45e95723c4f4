/**
 The registry and the send half of its driver over whole runs: any interleaving of request
 handles, receives and closes with the driver's fetch, open check and offer to QUIC.
 */
module DatagramSchedule {
  import opened Bytes
  import opened D = Datagrams
  import Varint

  /** One critical section of the registry, other than the driver's. */
  datatype Op =
    | Register(id: nat, semantics: bool)
    | Send(id: nat, payload: seq<byte>)
    | Receive(id: nat, payload: seq<byte>, alive: bool)
    | PollRecv(id: nat)
    | CloseSend(id: nat)
    | CloseRecv(id: nat)
    | CloseSession(id: nat)
    | CloseAll
    | SetMax(maxSize: Option<nat>)
    | Negotiate(enabled: bool)

  /** What the transport does with an offered packet. */
  datatype Outcome = Blocked | Taken | Refused

  datatype Event = Do(op: Op) | Fetch | Check | Offer(outcome: Outcome)

  /** The registry, the driver's held packet, and what has happened so far. */
  datatype World = World(
    reg: Reg,
    pending: Option<Packet>,
    checked: bool,
    used: set<nat>,
    accepted: seq<Packet>,
    taken: seq<Packet>,
    resolved: seq<Packet>,
    sent: seq<Packet>)

  function Start(maxSize: Option<nat>): World {
    World(Empty(maxSize), None, false, {}, [], [], [], [])
  }

  predicate Open(r: Reg, id: nat) {
    id in r.streams && r.streams[id].sendOpen
  }

  /** The packets of one session, in order. */
  function Of(ps: seq<Packet>, id: nat): seq<seq<byte>> {
    if ps == [] then []
    else
      var last := ps[|ps| - 1];
      Of(ps[..|ps| - 1], id) + (if last.id == id then [last.bytes] else [])
  }

  lemma OfPush(ps: seq<Packet>, p: Packet, id: nat)
    ensures Of(ps + [p], id) == Of(ps, id) + (if p.id == id then [p.bytes] else [])
  {
    assert (ps + [p])[..|ps|] == ps;
  }

  lemma {:induction false} OfNone(ps: seq<Packet>, id: nat)
    requires forall p | p in ps :: p.id != id
    ensures Of(ps, id) == []
  {
    if ps != [] {
      OfNone(ps[..|ps| - 1], id);
    }
  }

  /** `a` is `b` with some elements left out. */
  predicate Subsequence<T(==)>(a: seq<T>, b: seq<T>) {
    a == [] ||
    (b != [] &&
     ((a[|a| - 1] == b[|b| - 1] && Subsequence(a[..|a| - 1], b[..|b| - 1])) ||
      Subsequence(a, b[..|b| - 1])))
  }

  lemma SubsequencePush<T>(a: seq<T>, b: seq<T>, x: T)
    requires Subsequence(a, b)
    ensures Subsequence(a, b + [x]) && Subsequence(a + [x], b + [x])
  {
    assert (b + [x])[..|b|] == b && (a + [x])[..|a|] == a;
  }

  lemma {:induction false} SubsequenceGrows<T>(a: seq<T>, b: seq<T>, c: seq<T>)
    requires Subsequence(a, b)
    ensures Subsequence(a, b + c)
    decreases |c|
  {
    if c == [] {
      assert b + c == b;
    } else {
      var n := |c| - 1;
      SubsequenceGrows(a, b, c[..n]);
      SubsequencePush(a, b + c[..n], c[n]);
      assert b + c[..n] + [c[n]] == b + c;
    }
  }

  lemma {:induction false} SubsequenceOf(a: seq<Packet>, b: seq<Packet>, id: nat)
    requires Subsequence(a, b)
    ensures Subsequence(Of(a, id), Of(b, id))
    decreases |b|
  {
    if a != [] {
      var a', b' := a[..|a| - 1], b[..|b| - 1];
      var x := b[|b| - 1];
      OfPush(b', x, id);
      assert b' + [x] == b;
      if a[|a| - 1] == x && Subsequence(a', b') {
        SubsequenceOf(a', b', id);
        OfPush(a', x, id);
        assert a' + [x] == a;
        if x.id == id {
          SubsequencePush(Of(a', id), Of(b', id), x.bytes);
        } else {
          assert Of(a, id) == Of(a', id) && Of(b, id) == Of(b', id);
        }
      } else {
        SubsequenceOf(a, b', id);
        if x.id == id {
          SubsequencePush(Of(a, id), Of(b', id), x.bytes);
        } else {
          assert Of(b, id) == Of(b', id);
        }
      }
    }
  }

  // ----- registry operations -----

  /** A stream ID is at most 62 bits and new when it is registered. */
  predicate Allowed(used: set<nat>, op: Op) {
    match op
    case Register(id, _) => id !in used
    case Send(id, _) => id / 4 < Varint.VARINT_LIMIT
    case _ => true
  }

  ghost function Act(r: Reg, op: Op): Reg
    requires Valid(r) && Allowed(r.streams.Keys, op)
  {
    assert op.Send? && op.id in r.streams ==> EntryOk(r.streams[op.id]);
    assert op.Receive? && op.id in r.streams ==> EntryOk(r.streams[op.id]);
    match op
    case Register(id, semantics) => D.Register(r, id, semantics)
    case Send(id, payload) => TrySend(r, id, payload).0
    case Receive(id, payload, alive) => D.Receive(r, id, payload, alive)
    case PollRecv(id) => D.PollRecv(r, id)
    case CloseSend(id) => D.CloseSend(r, id)
    case CloseRecv(id) => D.CloseRecv(r, id)
    case CloseSession(id) => D.CloseSession(r, id)
    case CloseAll => D.CloseAll(r)
    case SetMax(maxSize) => r.(maxSize := maxSize)
    case Negotiate(enabled) => r.(negotiated := enabled)
  }

  /** The packet a send adds to the queues, if it is admitted. */
  ghost function Admitted(r: Reg, op: Op): seq<Packet>
    requires Valid(r) && Allowed(r.streams.Keys, op)
  {
    assert op.Send? && op.id in r.streams ==> EntryOk(r.streams[op.id]);
    if op.Send? && TrySend(r, op.id, op.payload).1.Sent?
    then [Packet(op.id, Frame(op.id, op.payload))] else []
  }

  lemma CloseAllValid(r: Reg)
    ensures Valid(D.CloseAll(r))
  {
  }

  lemma ActValid(r: Reg, op: Op)
    requires Valid(r) && Allowed(r.streams.Keys, op)
    ensures Valid(Act(r, op))
  {
    hide Total, Flatten, Rotation, Frame;
    match op {
      case Register(id, semantics) => RegisterValid(r, id, semantics);
      case Send(id, payload) =>
        assert id in r.streams ==> EntryOk(r.streams[id]);
        if Admits(r, id, |Frame(id, payload)|).Sent? {
          EnqueueValid(r, id, Frame(id, payload));
        }
      case Receive(id, payload, alive) => ReceiveValid(r, id, payload, alive);
      case PollRecv(id) => PollRecvValid(r, id);
      case CloseSend(id) => CloseSendValid(r, id);
      case CloseRecv(id) => CloseRecvValid(r, id);
      case CloseSession(id) => CloseSessionValid(r, id);
      case CloseAll => CloseAllValid(r);
      case SetMax(_) => assert Rotation(Act(r, op)) by { SameRotation(r, Act(r, op)); }
      case Negotiate(_) => assert Rotation(Act(r, op)) by { SameRotation(r, Act(r, op)); }
    }
  }

  /** Only registering opens a session, and only an admitted send adds to an open one's queue. */
  lemma ActSession(r: Reg, op: Op, id: nat)
    requires Valid(r) && Allowed(r.streams.Keys, op)
    requires op != Register(id, true) && op != Register(id, false)
    ensures Open(Act(r, op), id) ==> Open(r, id)
    ensures Open(Act(r, op), id) ==>
              Act(r, op).streams[id].outgoing == r.streams[id].outgoing + Of(Admitted(r, op), id)
    ensures !Open(r, id) ==> Of(Admitted(r, op), id) == []
  {
    hide Total, Flatten, Rotation, Frame, EntryOk;
    assert op.Send? && op.id in r.streams ==> EntryOk(r.streams[op.id]);
    if Admitted(r, op) != [] {
      OfPush([], Admitted(r, op)[0], id);
      assert [] + [Admitted(r, op)[0]] == Admitted(r, op);
    }
  }

  lemma {:induction false} WithoutPosition(ready: seq<nat>, other: nat, k: nat) returns (j: nat)
    requires k < |ready| && ready[k] != other
    ensures j <= k && j < |Without(ready, other)| && Without(ready, other)[j] == ready[k]
  {
    if k == 0 {
      j := 0;
    } else {
      j := WithoutPosition(ready[1..], other, k - 1);
      if ready[0] != other {
        j := j + 1;
      }
    }
  }

  /** No operation moves a session that stays open back in the rotation. */
  lemma ActPosition(r: Reg, op: Op, k: nat) returns (j: nat)
    requires Valid(r) && Allowed(r.streams.Keys, op) && k < |r.ready|
    requires Open(Act(r, op), r.ready[k])
    ensures j <= k && j < |Act(r, op).ready| && Act(r, op).ready[j] == r.ready[k]
  {
    hide Total, Flatten, Frame, EntryOk, Budget, Rotation;
    j := k;
    if (op.CloseSend? || op.CloseSession?) && op.id in r.streams {
      j := WithoutPosition(r.ready, op.id, k);
    }
  }

  // ----- events -----

  predicate Enabled(w: World, e: Event) {
    match e
    case Do(op) => Allowed(w.used, op)
    case Fetch => w.pending.None? && !w.checked
    case Check => w.pending.Some? && !w.checked
    case Offer(_) => w.checked && w.pending.Some?
  }

  function Held(w: World): seq<Packet> {
    if w.pending.Some? then [w.pending.value] else []
  }

  ghost predicate Sound(w: World) {
    Valid(w.reg) && w.reg.streams.Keys <= w.used
  }

  /** The held packet leaves the driver, sent or dropped. */
  function Resolve(w: World, sent: bool): World
    requires w.pending.Some?
  {
    w.(pending := None, checked := false, resolved := w.resolved + [w.pending.value],
       sent := if sent then w.sent + [w.pending.value] else w.sent)
  }

  ghost function Step(w: World, e: Event): World
    requires Sound(w) && Enabled(w, e)
  {
    match e
    case Do(op) =>
      assert Allowed(w.reg.streams.Keys, op);
      w.(reg := Act(w.reg, op),
         used := if op.Register? then w.used + {op.id} else w.used,
         accepted := w.accepted + Admitted(w.reg, op))
    case Fetch =>
      var (r, p) := Next(w.reg);
      w.(reg := r, pending := p, taken := if p.Some? then w.taken + [p.value] else w.taken)
    case Check =>
      if Open(w.reg, w.pending.value.id) then w.(checked := true) else Resolve(w, false)
    case Offer(Blocked) => w.(checked := false)
    case Offer(Taken) => Resolve(w, true)
    case Offer(Refused) => Resolve(w, false)
  }

  /** A session's packets leave the queue in the order they were admitted. */
  predicate Fifo(w: World, id: nat) {
    if Open(w.reg, id)
    then Of(w.taken, id) + w.reg.streams[id].outgoing == Of(w.accepted, id)
    else Of(w.taken, id) <= Of(w.accepted, id)
  }

  ghost predicate Known(w: World) {
    forall p | p in w.accepted :: p.id in w.used
  }

  ghost predicate Inv(w: World) {
    && Sound(w)
    && Known(w)
    && (forall id :: Fifo(w, id))
    && w.taken == w.resolved + Held(w)
    && Subsequence(w.sent, w.resolved)
    && (w.checked ==> w.pending.Some?)
  }

  /** `next` takes the front packet of the session it serves and touches no other. */
  lemma NextSession(r: Reg, id: nat)
    requires Valid(r)
    ensures var (r', p) := Next(r);
            && Valid(r')
            && r'.streams.Keys == r.streams.Keys
            && (Open(r', id) <==> Open(r, id))
            && (p.Some? ==> Open(r, p.value.id))
            && (Open(r, id) ==>
                  r.streams[id].outgoing ==
                  (if p.Some? && p.value.id == id then [p.value.bytes] else []) + r'.streams[id].outgoing)
  {
    hide Total, Flatten;
    NextValid(r);
    if r.ready != [] {
      assert EntryOk(r.streams[r.ready[0]]);
    }
  }

  lemma FetchFifo(w: World, id: nat)
    requires Sound(w) && Enabled(w, Fetch) && Fifo(w, id)
    ensures Fifo(Step(w, Fetch), id)
  {
    hide Next, Total, Rotation, EntryOk, Of;
    NextSession(w.reg, id);
    var p := Next(w.reg).1;
    if p.Some? {
      OfPush(w.taken, p.value, id);
    }
  }

  lemma RegisterFifo(w: World, op: Op)
    requires op.Register? && Sound(w) && Known(w) && Enabled(w, Do(op)) && Fifo(w, op.id)
    ensures Fifo(Step(w, Do(op)), op.id)
  {
    OfNone(w.accepted, op.id);
    assert !Open(w.reg, op.id) && Of(w.taken, op.id) == [];
    assert Admitted(w.reg, op) == [] && w.accepted + [] == w.accepted;
    hide Act, Valid, Of, Admitted;
    RegisterSession(w.reg, op);
  }

  lemma Regroup(a: seq<seq<byte>>, b: seq<seq<byte>>, c: seq<seq<byte>>)
    ensures a + (b + c) == a + b + c
  {
  }

  lemma DoFifo(w: World, op: Op, id: nat)
    requires Sound(w) && Known(w) && Enabled(w, Do(op)) && Fifo(w, id)
    ensures Fifo(Step(w, Do(op)), id)
  {
    if op.Register? && op.id == id {
      RegisterFifo(w, op);
      hide Fifo, Step;
    } else {
      assert |Admitted(w.reg, op)| <= 1;
      hide Act, Valid, Of, Admitted;
      ActSession(w.reg, op, id);
      OfJoin(w.accepted, Admitted(w.reg, op), id);
      if Open(w.reg, id) {
        Regroup(Of(w.taken, id), w.reg.streams[id].outgoing, Of(Admitted(w.reg, op), id));
      }
    }
  }

  lemma OfJoin(a: seq<Packet>, b: seq<Packet>, id: nat)
    requires |b| <= 1
    ensures Of(a + b, id) == Of(a, id) + Of(b, id)
  {
    assert Of([], id) == [];
    hide Of;
    if b == [] {
      assert a + b == a;
    } else {
      OfPush(a, b[0], id);
      OfPush([], b[0], id);
      assert [] + [b[0]] == b && a + [b[0]] == a + b;
    }
  }

  lemma RegisterSession(r: Reg, op: Op)
    requires Valid(r) && Allowed(r.streams.Keys, op) && op.Register?
    ensures Open(Act(r, op), op.id) ==> Act(r, op).streams[op.id].outgoing == []
  {
    hide Total, Flatten, Rotation, EntryOk;
  }

  lemma ActKeys(r: Reg, op: Op)
    requires Valid(r) && Allowed(r.streams.Keys, op)
    ensures Act(r, op).streams.Keys <= r.streams.Keys + (if op.Register? then {op.id} else {})
    ensures forall p | p in Admitted(r, op) :: p.id in r.streams
  {
    hide Total, Flatten, Rotation, EntryOk, Frame;
  }

  lemma DoInv(w: World, op: Op)
    requires Inv(w) && Enabled(w, Do(op))
    ensures Inv(Step(w, Do(op)))
  {
    hide Valid, Act, Next, Subsequence, Of, Fifo, Admitted;
    ActValid(w.reg, op);
    ActKeys(w.reg, op);
    forall id ensures Fifo(Step(w, Do(op)), id) { DoFifo(w, op, id); }
  }

  lemma FetchInv(w: World)
    requires Inv(w) && Enabled(w, Fetch)
    ensures Inv(Step(w, Fetch))
  {
    hide Total, EntryOk, Rotation, Next, Subsequence, Of, Fifo;
    NextSession(w.reg, 0);
    forall id ensures Fifo(Step(w, Fetch), id) { FetchFifo(w, id); }
  }

  /** The driver's own steps leave the registry and both ends of the queues alone. */
  lemma OwnInv(w: World, e: Event)
    requires Inv(w) && Enabled(w, e) && (e.Check? || e.Offer?)
    ensures Inv(Step(w, e))
  {
    hide Valid, Act, Next, Subsequence, Of;
    SubsequencePush(w.sent, w.resolved, w.pending.value);
    forall id ensures Fifo(Step(w, e), id) { assert Fifo(w, id); }
  }

  lemma StepInv(w: World, e: Event)
    requires Inv(w) && Enabled(w, e)
    ensures Inv(Step(w, e))
  {
    hide Inv, Step;
    if e.Do? {
      DoInv(w, e.op);
    } else if e.Fetch? {
      FetchInv(w);
    } else {
      OwnInv(w, e);
    }
  }

  // ----- runs -----

  ghost predicate Reaches(w: World, es: seq<Event>, w': World)
    decreases |es|
  {
    if es == [] then w' == w
    else Sound(w) && Enabled(w, es[0]) && Reaches(Step(w, es[0]), es[1..], w')
  }

  lemma {:induction false} ReachesInv(w: World, es: seq<Event>, w': World)
    requires Inv(w) && Reaches(w, es, w')
    ensures Inv(w')
    decreases |es|
  {
    hide Inv, Step;
    if es != [] {
      StepInv(w, es[0]);
      ReachesInv(Step(w, es[0]), es[1..], w');
    }
  }

  /**
   Every reachable registry has exact byte counts within the limits and an exact rotation;
   and each session's packets reach QUIC in the order they were admitted, none twice.
   */
  lemma EveryRun(maxSize: Option<nat>, es: seq<Event>, w: World, id: nat)
    requires Reaches(Start(maxSize), es, w)
    ensures Valid(w.reg)
    ensures Subsequence(Of(w.sent, id), Of(w.accepted, id))
    ensures Open(w.reg, id) ==> Of(w.taken, id) + w.reg.streams[id].outgoing == Of(w.accepted, id)
  {
    hide Reaches;
    StartInv(maxSize);
    ReachesInv(Start(maxSize), es, w);
    hide Valid, Of, Subsequence;
    assert Fifo(w, id);
    SubsequenceGrows(w.sent, w.resolved, Held(w));
    SubsequenceOf(w.sent, w.taken, id);
    var n := |Of(w.taken, id)|;
    assert Of(w.taken, id) <= Of(w.accepted, id);
    SubsequenceGrows(Of(w.sent, id), Of(w.taken, id), Of(w.accepted, id)[n..]);
    assert Of(w.taken, id) + Of(w.accepted, id)[n..] == Of(w.accepted, id);
  }

  lemma StartInv(maxSize: Option<nat>)
    ensures Inv(Start(maxSize))
  {
    var w := Start(maxSize);
    assert forall id :: Fifo(w, id);
    assert w.taken == w.resolved + Held(w);
  }

  // ----- closing -----

  lemma StaysClosed(w: World, e: Event, id: nat)
    requires Inv(w) && Enabled(w, e) && id in w.used && !Open(w.reg, id)
    ensures id in Step(w, e).used && !Open(Step(w, e).reg, id)
  {
    hide Valid, Act, Next, Fifo, Of, Subsequence;
    match e {
      case Do(op) => ActSession(w.reg, op, id);
      case Fetch => NextSession(w.reg, id);
      case Check =>
      case Offer(_) =>
    }
  }

  /** The packet whose open check has passed and whose offer is still to come. */
  function InFlight(w: World, id: nat): seq<seq<byte>> {
    if w.checked && w.pending.Some? && w.pending.value.id == id then [w.pending.value.bytes] else []
  }

  lemma ClosedStep(w: World, e: Event, id: nat)
    requires Inv(w) && Enabled(w, e) && id in w.used && !Open(w.reg, id)
    ensures var w' := Step(w, e);
            || (Of(w'.sent, id) == Of(w.sent, id) && (InFlight(w', id) == InFlight(w, id) || InFlight(w', id) == []))
            || (Of(w'.sent, id) == Of(w.sent, id) + InFlight(w, id) && InFlight(w', id) == [])
  {
    hide Valid, Act, Next, Fifo, Of, Subsequence;
    if w.pending.Some? {
      OfPush(w.sent, w.pending.value, id);
    }
  }

  /**
   Once a session's send direction is closed, at most the one packet whose open check had
   already passed still reaches QUIC, whatever happens next.
   */
  lemma {:induction false} NothingAfterClose(w: World, es: seq<Event>, w': World, id: nat)
    requires Inv(w) && Reaches(w, es, w') && id in w.used && !Open(w.reg, id)
    ensures Of(w'.sent, id) == Of(w.sent, id) || Of(w'.sent, id) == Of(w.sent, id) + InFlight(w, id)
    decreases |es|
  {
    hide Inv, Step, Open, InFlight, Of;
    if es != [] {
      StaysClosed(w, es[0], id);
      ClosedStep(w, es[0], id);
      StepInv(w, es[0]);
      NothingAfterClose(Step(w, es[0]), es[1..], w', id);
    }
  }

  /** Each of the closing operations closes the send direction of its sessions. */
  lemma ClosingCloses(r: Reg, id: nat)
    requires Valid(r)
    ensures !Open(Act(r, CloseSend(id)), id)
    ensures !Open(Act(r, CloseSession(id)), id)
    ensures !Open(Act(r, CloseAll), id)
  {
    hide Total, Flatten, Rotation, EntryOk;
  }

  // ----- fairness -----

  /** Calls of `next` in a run. */
  function Fetches(es: seq<Event>): nat {
    if es == [] then 0 else (if es[0].Fetch? then 1 else 0) + Fetches(es[1..])
  }

  ghost predicate Served(w: World, w': World, id: nat) {
    |Of(w'.taken, id)| > |Of(w.taken, id)|
  }

  lemma TakenGrows(w: World, e: Event, id: nat)
    requires Inv(w) && Enabled(w, e)
    ensures |Of(Step(w, e).taken, id)| >= |Of(w.taken, id)|
  {
    hide Total, EntryOk, Rotation, Act, Next, Fifo, Of, Subsequence;
    if e.Fetch? && Next(w.reg).1.Some? {
      OfPush(w.taken, Next(w.reg).1.value, id);
    }
  }

  /** A fetch serves the front session and moves every other one forward. */
  lemma FetchPosition(w: World, k: nat)
    requires Inv(w) && Enabled(w, Fetch) && k < |w.reg.ready|
    ensures k == 0 ==> Served(w, Step(w, Fetch), w.reg.ready[0])
    ensures k > 0 ==> k - 1 < |Step(w, Fetch).reg.ready| && Step(w, Fetch).reg.ready[k - 1] == w.reg.ready[k]
  {
    hide Fifo, Of, Subsequence, Total, EntryOk, Rotation;
    NextValid(w.reg);
    OfPush(w.taken, Next(w.reg).1.value, w.reg.ready[0]);
  }

  lemma {:induction false} ClosedForGood(w: World, es: seq<Event>, w': World, id: nat)
    requires Inv(w) && Reaches(w, es, w') && id in w.used && !Open(w.reg, id)
    ensures !Open(w'.reg, id)
    decreases |es|
  {
    hide Inv, Step, Open;
    if es != [] {
      StaysClosed(w, es[0], id);
      StepInv(w, es[0]);
      ClosedForGood(Step(w, es[0]), es[1..], w', id);
    }
  }

  lemma {:induction false} NeverUnserved(w: World, es: seq<Event>, w': World, id: nat)
    requires Inv(w) && Reaches(w, es, w')
    ensures |Of(w'.taken, id)| >= |Of(w.taken, id)|
    decreases |es|
  {
    hide Inv, Step, Of;
    if es != [] {
      TakenGrows(w, es[0], id);
      StepInv(w, es[0]);
      NeverUnserved(Step(w, es[0]), es[1..], w', id);
    }
  }

  lemma Queued(w: World, k: nat)
    requires Inv(w) && k < |w.reg.ready|
    ensures w.reg.ready[k] in w.used
  {
    hide Total, EntryOk, Fifo, Subsequence;
    assert Waiting(w.reg, w.reg.ready[k]);
  }

  /** One step serves the session, closes it, or keeps it no further back. */
  lemma StepPosition(w: World, e: Event, k: nat) returns (j: nat)
    requires Inv(w) && Enabled(w, e) && k < |w.reg.ready|
    ensures var w' := Step(w, e); var id := w.reg.ready[k];
            || Served(w, w', id)
            || !Open(w'.reg, id)
            || (j < |w'.reg.ready| && w'.reg.ready[j] == id && (if e.Fetch? then j + 1 <= k else j <= k))
  {
    hide Valid, Act, Next, Fifo, Of, Subsequence, Served;
    j := k;
    if e.Fetch? {
      FetchPosition(w, k);
      j := if k > 0 then k - 1 else 0;
    } else if e.Do? && Open(Act(w.reg, e.op), w.reg.ready[k]) {
      j := ActPosition(w.reg, e.op, k);
    }
  }

  /**
   A session at position `k` of the rotation is served, or has been closed, by the time
   `next` has been called `k + 1` times, whatever else happens in between.
   */
  lemma {:induction false} Fair(w: World, es: seq<Event>, w': World, k: nat)
    requires Inv(w) && Reaches(w, es, w') && k < |w.reg.ready| && Fetches(es) > k
    ensures Served(w, w', w.reg.ready[k]) || !Open(w'.reg, w.reg.ready[k])
    decreases |es|
  {
    hide Inv, Step, Open, Of;
    var id := w.reg.ready[k];
    var w1 := Step(w, es[0]);
    StepInv(w, es[0]);
    Queued(w, k);
    TakenGrows(w, es[0], id);
    NeverUnserved(w1, es[1..], w', id);
    var j := StepPosition(w, es[0], k);
    if !Served(w, w1, id) {
      if !Open(w1.reg, id) {
        UsedGrows(w, es[0], id);
        ClosedForGood(w1, es[1..], w', id);
      } else {
        Fair(w1, es[1..], w', j);
      }
    }
  }

  /** Fairness in every run: `es` leads to a rotation with the session at position `k`. */
  lemma FairRun(maxSize: Option<nat>, es: seq<Event>, w: World, k: nat, more: seq<Event>, w': World)
    requires Reaches(Start(maxSize), es, w) && k < |w.reg.ready|
    requires Reaches(w, more, w') && Fetches(more) > k
    ensures Served(w, w', w.reg.ready[k]) || !Open(w'.reg, w.reg.ready[k])
  {
    hide Inv, Reaches, Served, Open, Fetches;
    StartInv(maxSize);
    ReachesInv(Start(maxSize), es, w);
    Fair(w, more, w', k);
  }

  /** Silence after a close in every run: `es` leads to a session whose send direction is closed. */
  lemma ClosedRun(maxSize: Option<nat>, es: seq<Event>, w: World, id: nat, more: seq<Event>, w': World)
    requires Reaches(Start(maxSize), es, w) && id in w.used && !Open(w.reg, id)
    requires Reaches(w, more, w')
    ensures Of(w'.sent, id) == Of(w.sent, id) || Of(w'.sent, id) == Of(w.sent, id) + InFlight(w, id)
  {
    hide Inv, Reaches, Of, Open, InFlight;
    StartInv(maxSize);
    ReachesInv(Start(maxSize), es, w);
    NothingAfterClose(w, more, w', id);
  }

  lemma UsedGrows(w: World, e: Event, id: nat)
    requires Inv(w) && Enabled(w, e) && id in w.used
    ensures id in Step(w, e).used
  {
    hide Valid, Act, Next, Fifo, Of, Subsequence;
  }
}
