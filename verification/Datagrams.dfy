/**
 The HTTP Datagram registry of a connection: bounded per-session queues keyed by request
 stream, the connection-wide byte budgets and the send round robin.
 */
module Datagrams {
  import opened Bytes
  import Varint

  const PACKETS: nat := 64
  const SESSION_BYTES: nat := 128 * 1024
  const CONNECTION_BYTES: nat := 1024 * 1024

  datatype Entry = Entry(
    semantics: bool,
    sendOpen: bool,
    recvOpen: bool,
    incoming: seq<seq<byte>>,
    outgoing: seq<seq<byte>>,
    inBytes: nat,
    outBytes: nat)

  datatype Reg = Reg(
    streams: map<nat, Entry>,
    ready: seq<nat>,
    incoming: nat,
    outgoing: nat,
    maxSize: Option<nat>,
    negotiated: bool,
    closed: bool)

  datatype SendResult = Sent | Unavailable | TooLarge | Full | Closed

  datatype Packet = Packet(id: nat, bytes: seq<byte>)

  function InBytes(e: Entry): nat { e.inBytes }

  function OutBytes(e: Entry): nat { e.outBytes }

  // ----- totals -----

  ghost function Total(m: map<nat, Entry>, f: Entry -> nat): nat
    decreases |m|
  {
    if m == map[] then 0
    else
      var k :| k in m;
      f(m[k]) + Total(m - {k}, f)
  }

  lemma {:induction false} TotalRemove(m: map<nat, Entry>, f: Entry -> nat, k: nat)
    requires k in m
    ensures Total(m, f) == f(m[k]) + Total(m - {k}, f)
    decreases |m|
  {
    var c :| c in m && Total(m, f) == f(m[c]) + Total(m - {c}, f);
    if c != k {
      TotalRemove(m - {c}, f, k);
      TotalRemove(m - {k}, f, c);
      assert m - {c} - {k} == m - {k} - {c};
    }
  }

  lemma TotalUpdate(m: map<nat, Entry>, f: Entry -> nat, k: nat, e: Entry)
    ensures k in m ==> Total(m[k := e], f) + f(m[k]) == Total(m, f) + f(e)
    ensures k !in m ==> Total(m[k := e], f) == Total(m, f) + f(e)
  {
    TotalRemove(m[k := e], f, k);
    if k in m {
      TotalRemove(m, f, k);
      assert m[k := e] - {k} == m - {k};
    } else {
      assert m[k := e] - {k} == m;
    }
  }

  // ----- invariants -----

  predicate EntryOk(e: Entry) {
    && e.inBytes == |Flatten(e.incoming)| <= SESSION_BYTES && |e.incoming| <= PACKETS
    && e.outBytes == |Flatten(e.outgoing)| <= SESSION_BYTES && |e.outgoing| <= PACKETS
    && (!e.sendOpen ==> e.outgoing == [])
    && (!e.recvOpen ==> e.incoming == [])
  }

  /** Byte counts are exact and within the session and connection limits. */
  ghost predicate Budget(r: Reg) {
    && (forall id | id in r.streams :: EntryOk(r.streams[id]))
    && r.incoming == Total(r.streams, InBytes) <= CONNECTION_BYTES
    && r.outgoing == Total(r.streams, OutBytes) <= CONNECTION_BYTES
  }

  predicate Waiting(r: Reg, id: nat) {
    id in r.streams && r.streams[id].outgoing != []
  }

  predicate Distinct(s: seq<nat>) {
    forall i, j | 0 <= i < j < |s| :: s[i] != s[j]
  }

  /** The round robin holds each session with queued output once, and no other. */
  predicate Rotation(r: Reg) {
    && (forall i | 0 <= i < |r.ready| :: Waiting(r, r.ready[i]))
    && (forall id | id in r.streams && r.streams[id].outgoing != [] :: id in r.ready)
    && Distinct(r.ready)
  }

  ghost predicate Valid(r: Reg) {
    Budget(r) && Rotation(r) && (r.closed ==> r.streams == map[])
  }

  // ----- operations -----

  function Empty(maxSize: Option<nat>): Reg {
    Reg(map[], [], 0, 0, maxSize, false, false)
  }

  function Put(r: Reg, id: nat, e: Entry): Reg {
    r.(streams := r.streams[id := e])
  }

  function Register(r: Reg, id: nat, semantics: bool): Reg {
    if r.closed then r else Put(r, id, Entry(semantics, true, true, [], [], 0, 0))
  }

  function CloseAll(r: Reg): Reg {
    r.(closed := true, incoming := 0, outgoing := 0, ready := [], streams := map[])
  }

  /** How many bytes the Quarter Stream ID takes in front of a payload. */
  function PrefixSize(id: nat): nat {
    Varint.Size(id / 4)
  }

  /** Whether a packet of `size` bytes is admitted to `id`'s send queue now. */
  function Admits(r: Reg, id: nat, size: nat): SendResult
    requires r.outgoing <= CONNECTION_BYTES
    requires id in r.streams ==> r.streams[id].outBytes <= SESSION_BYTES
  {
    if id !in r.streams || !r.streams[id].sendOpen then Closed
    else if r.maxSize.None? || !r.negotiated then Unavailable
    else if size > r.maxSize.value || size > SESSION_BYTES then TooLarge
    else if |r.streams[id].outgoing| == PACKETS
         || size > SESSION_BYTES - r.streams[id].outBytes
         || size > CONNECTION_BYTES - r.outgoing then Full
    else Sent
  }

  function Frame(id: nat, payload: seq<byte>): (p: seq<byte>)
    requires id / 4 < Varint.VARINT_LIMIT
    ensures |p| == PrefixSize(id) + |payload|
  {
    Varint.Encode(id / 4) + payload
  }

  /** The peer reads back the Quarter Stream ID and exactly the payload. */
  lemma FrameRoundTrip(id: nat, payload: seq<byte>)
    requires id / 4 < Varint.VARINT_LIMIT
    ensures Varint.Decode(Frame(id, payload)) == Some((id / 4, PrefixSize(id)))
    ensures Frame(id, payload)[PrefixSize(id)..] == payload
  {
    Varint.RoundTrip(id / 4, payload);
  }

  function Enqueue(r: Reg, id: nat, packet: seq<byte>): Reg
    requires id in r.streams
  {
    var e := r.streams[id];
    Put(r, id, e.(outgoing := e.outgoing + [packet], outBytes := e.outBytes + |packet|))
    .(outgoing := r.outgoing + |packet|,
      ready := if e.outgoing == [] then r.ready + [id] else r.ready)
  }

  function TrySend(r: Reg, id: nat, payload: seq<byte>): (Reg, SendResult)
    requires r.outgoing <= CONNECTION_BYTES && id / 4 < Varint.VARINT_LIMIT
    requires id in r.streams ==> r.streams[id].outBytes <= SESSION_BYTES
  {
    var packet := Frame(id, payload);
    var result := Admits(r, id, |packet|);
    (if result.Sent? then Enqueue(r, id, packet) else r, result)
  }

  /** Whether a payload of the current maximum size would be admitted now. */
  function ReadyNow(r: Reg, id: nat): SendResult
    requires r.outgoing <= CONNECTION_BYTES
    requires id in r.streams ==> r.streams[id].outBytes <= SESSION_BYTES
  {
    if id in r.streams && r.streams[id].sendOpen && r.negotiated && r.maxSize.Some?
       && r.maxSize.value < PrefixSize(id) then TooLarge
    else Admits(r, id, if r.maxSize.Some? then Min(r.maxSize.value, SESSION_BYTES) else 0)
  }

  /** Removes the first packet of a session and rotates it behind the others. */
  ghost function Dequeue(r: Reg, id: nat): Reg
    requires Budget(r) && Waiting(r, id)
  {
    var e := r.streams[id];
    var n := |e.outgoing[0]|;
    TotalRemove(r.streams, OutBytes, id);
    var e' := e.(outgoing := e.outgoing[1..], outBytes := e.outBytes - n);
    Put(r, id, e').(outgoing := r.outgoing - n,
                    ready := if e'.outgoing == [] then r.ready else r.ready + [id])
  }

  /** The next packet to send, skipping stale round robin entries. */
  ghost function Next(r: Reg): (x: (Reg, Option<Packet>))
    requires Budget(r)
    decreases |r.ready|
  {
    if r.ready == [] then (r, None)
    else
      var id := r.ready[0];
      var popped := r.(ready := r.ready[1..]);
      if Waiting(r, id) then
        (Dequeue(popped, id), Some(Packet(id, r.streams[id].outgoing[0])))
      else Next(popped)
  }

  /** Queues a received payload, dropping the newest when a budget is used up. */
  function Receive(r: Reg, id: nat, payload: seq<byte>, alive: bool): Reg
    requires r.incoming <= CONNECTION_BYTES
    requires id in r.streams ==> r.streams[id].inBytes <= SESSION_BYTES
  {
    if id !in r.streams then r
    else
      var e := r.streams[id];
      if !e.recvOpen || !alive || !e.semantics then r
      else if |e.incoming| == PACKETS
           || |payload| > SESSION_BYTES - e.inBytes
           || |payload| > CONNECTION_BYTES - r.incoming then r
      else
        Put(r, id, e.(incoming := e.incoming + [payload], inBytes := e.inBytes + |payload|))
        .(incoming := r.incoming + |payload|)
  }

  ghost function PollRecv(r: Reg, id: nat): Reg
    requires Budget(r)
  {
    if id !in r.streams || r.streams[id].incoming == [] then r
    else
      var e := r.streams[id];
      var n := |e.incoming[0]|;
      TotalRemove(r.streams, InBytes, id);
      Put(r, id, e.(incoming := e.incoming[1..], inBytes := e.inBytes - n))
      .(incoming := r.incoming - n)
  }

  function Without(ready: seq<nat>, id: nat): seq<nat> {
    if ready == [] then []
    else if ready[0] == id then Without(ready[1..], id)
    else [ready[0]] + Without(ready[1..], id)
  }

  ghost function CloseSend(r: Reg, id: nat): Reg
    requires Budget(r)
  {
    if id !in r.streams then r
    else
      var e := r.streams[id];
      TotalRemove(r.streams, OutBytes, id);
      Put(r, id, e.(sendOpen := false, outBytes := 0, outgoing := []))
      .(outgoing := r.outgoing - e.outBytes, ready := Without(r.ready, id))
  }

  ghost function CloseRecv(r: Reg, id: nat): Reg
    requires Budget(r)
  {
    if id !in r.streams then r
    else
      var e := r.streams[id];
      TotalRemove(r.streams, InBytes, id);
      Put(r, id, e.(recvOpen := false, inBytes := 0, incoming := []))
      .(incoming := r.incoming - e.inBytes)
  }

  ghost function CloseSession(r: Reg, id: nat): Reg
    requires Budget(r)
  {
    if id !in r.streams then r
    else
      var e := r.streams[id];
      TotalRemove(r.streams, OutBytes, id);
      TotalRemove(r.streams, InBytes, id);
      r.(streams := r.streams - {id}, incoming := r.incoming - e.inBytes,
         outgoing := r.outgoing - e.outBytes, ready := Without(r.ready, id))
  }

  // ----- every operation keeps the invariant -----

  /** Replacing one entry moves the totals by exactly its change. */
  lemma PutBudget(r: Reg, id: nat, e: Entry, r': Reg)
    requires Budget(r) && EntryOk(e) && r'.streams == r.streams[id := e]
    requires r'.incoming + (if id in r.streams then r.streams[id].inBytes else 0) == r.incoming + e.inBytes
    requires r'.outgoing + (if id in r.streams then r.streams[id].outBytes else 0) == r.outgoing + e.outBytes
    requires r'.incoming <= CONNECTION_BYTES && r'.outgoing <= CONNECTION_BYTES
    ensures Budget(r')
  {
    hide EntryOk, Total;
    TotalUpdate(r.streams, InBytes, id, e);
    TotalUpdate(r.streams, OutBytes, id, e);
  }

  lemma SameRotation(r: Reg, r': Reg)
    requires Rotation(r) && r'.ready == r.ready
    requires forall id :: Waiting(r, id) <==> Waiting(r', id)
    ensures Rotation(r')
  {
    forall id | id in r'.streams && r'.streams[id].outgoing != []
      ensures id in r'.ready
    {
      assert Waiting(r', id) && Waiting(r, id);
    }
  }

  lemma RegisterValid(r: Reg, id: nat, semantics: bool)
    requires Valid(r) && id !in r.streams
    ensures Valid(Register(r, id, semantics))
  {
    hide Total;
    if !r.closed {
      var e := Entry(semantics, true, true, [], [], 0, 0);
      PutBudget(r, id, e, Register(r, id, semantics));
      SameRotation(r, Register(r, id, semantics));
    }
  }

  lemma EnqueueValid(r: Reg, id: nat, packet: seq<byte>)
    requires Valid(r) && Admits(r, id, |packet|).Sent?
    ensures Valid(Enqueue(r, id, packet))
  {
    hide Total, Flatten;
    var e := r.streams[id];
    var r' := Enqueue(r, id, packet);
    FlattenPush(e.outgoing, packet);
    PutBudget(r, id, r'.streams[id], r');
    assert e.outgoing == [] ==> id !in r.ready;
    assert forall k | k != id :: Waiting(r', k) <==> Waiting(r, k);
    assert Waiting(r', id);
    assert forall k | k in r'.streams && r'.streams[k].outgoing != [] :: Waiting(r', k);
  }

  lemma DequeueBudget(r: Reg, id: nat)
    requires Budget(r) && Waiting(r, id)
    ensures Budget(Dequeue(r, id))
  {
    TotalRemove(r.streams, OutBytes, id);
    var r' := Dequeue(r, id);
    assert EntryOk(r.streams[id]);
    PutBudget(r, id, r'.streams[id], r');
  }

  /** Moving the front session behind the others, or out, keeps the round robin exact. */
  lemma FrontServed(r: Reg, r': Reg)
    requires Rotation(r) && r.ready != []
    requires forall k | k != r.ready[0] :: Waiting(r', k) <==> Waiting(r, k)
    requires r'.ready == r.ready[1..] + (if Waiting(r', r.ready[0]) then [r.ready[0]] else [])
    ensures Rotation(r')
  {
    var id := r.ready[0];
    var rest := r.ready[1..];
    assert Distinct(rest) && id !in rest;
    forall i | 0 <= i < |r'.ready|
      ensures Waiting(r', r'.ready[i])
    {
      if i < |rest| {
        assert r'.ready[i] == r.ready[i + 1] && Waiting(r, r.ready[i + 1]);
      }
    }
    forall k | k in r'.streams && r'.streams[k].outgoing != []
      ensures k in r'.ready
    {
      assert Waiting(r', k);
      if k != id {
        assert Waiting(r, k) && k in r.ready && k in rest;
      }
    }
  }

  lemma DequeueRotation(r: Reg)
    requires Valid(r) && r.ready != []
    ensures Waiting(r, r.ready[0])
    ensures Rotation(Dequeue(r.(ready := r.ready[1..]), r.ready[0]))
  {
    var id := r.ready[0];
    assert Waiting(r, id);
    var r' := Dequeue(r.(ready := r.ready[1..]), id);
    hide Budget, Rotation;
    FrontServed(r, r');
  }

  /** `next` serves the session at the front and sends it to the back while it has more. */
  lemma NextValid(r: Reg)
    requires Valid(r)
    ensures r.ready == [] ==> Next(r) == (r, None)
    ensures r.ready != [] ==>
              && Waiting(r, r.ready[0])
              && Next(r).0 == Dequeue(r.(ready := r.ready[1..]), r.ready[0])
              && Next(r).1 == Some(Packet(r.ready[0], r.streams[r.ready[0]].outgoing[0]))
    ensures Valid(Next(r).0)
  {
    if r.ready != [] {
      hide EntryOk, Total;
      DequeueRotation(r);
      DequeueBudget(r.(ready := r.ready[1..]), r.ready[0]);
    }
  }

  lemma ReceiveValid(r: Reg, id: nat, payload: seq<byte>, alive: bool)
    requires Valid(r)
    ensures Valid(Receive(r, id, payload, alive))
  {
    hide Total, Flatten;
    var r' := Receive(r, id, payload, alive);
    if r' != r {
      var e := r.streams[id];
      assert EntryOk(e);
      FlattenPush(e.incoming, payload);
      PutBudget(r, id, r'.streams[id], r');
      SameRotation(r, r');
    }
  }

  lemma PollRecvValid(r: Reg, id: nat)
    requires Valid(r)
    ensures Valid(PollRecv(r, id))
  {
    hide Total;
    var r' := PollRecv(r, id);
    if id in r.streams && r.streams[id].incoming != [] {
      TotalRemove(r.streams, InBytes, id);
      assert EntryOk(r.streams[id]);
      PutBudget(r, id, r'.streams[id], r');
      SameRotation(r, r');
    }
  }

  lemma {:induction false} WithoutMembers(ready: seq<nat>, id: nat)
    ensures forall x :: x in Without(ready, id) <==> x in ready && x != id
  {
    if ready != [] {
      WithoutMembers(ready[1..], id);
    }
  }

  lemma {:induction false} WithoutDistinct(ready: seq<nat>, id: nat)
    requires Distinct(ready)
    ensures Distinct(Without(ready, id))
  {
    if ready != [] {
      assert Distinct(ready[1..]) && ready[0] !in ready[1..];
      WithoutDistinct(ready[1..], id);
      var rest := Without(ready[1..], id);
      if ready[0] != id {
        WithoutMembers(ready[1..], id);
        ConsDistinct(ready[0], rest);
      }
    }
  }

  lemma ConsDistinct(x: nat, s: seq<nat>)
    requires Distinct(s) && x !in s
    ensures Distinct([x] + s)
  {
    var t := [x] + s;
    forall i, j | 0 <= i < j < |t|
      ensures t[i] != t[j]
    {
      assert t[j] == s[j - 1];
    }
  }

  /** Dropping a session's output drops it from the round robin. */
  lemma DropRotation(r: Reg, id: nat, r': Reg)
    requires Rotation(r) && r'.ready == Without(r.ready, id)
    requires forall k | k != id :: Waiting(r', k) <==> Waiting(r, k)
    requires !Waiting(r', id)
    ensures Rotation(r')
  {
    WithoutDistinct(r.ready, id);
    WithoutMembers(r.ready, id);
    forall i | 0 <= i < |r'.ready|
      ensures Waiting(r', r'.ready[i])
    {
      assert r'.ready[i] in r.ready && r'.ready[i] != id;
      assert Waiting(r, r'.ready[i]);
    }
    forall k | k in r'.streams && r'.streams[k].outgoing != []
      ensures k in r'.ready
    {
      assert Waiting(r', k) && Waiting(r, k);
    }
  }

  lemma CloseSendValid(r: Reg, id: nat)
    requires Valid(r)
    ensures Valid(CloseSend(r, id))
  {
    if id in r.streams {
      TotalRemove(r.streams, OutBytes, id);
      assert EntryOk(r.streams[id]);
      var r' := CloseSend(r, id);
      PutBudget(r, id, r'.streams[id], r');
      DropRotation(r, id, r');
    }
  }

  lemma CloseRecvValid(r: Reg, id: nat)
    requires Valid(r)
    ensures Valid(CloseRecv(r, id))
  {
    if id in r.streams {
      TotalRemove(r.streams, InBytes, id);
      assert EntryOk(r.streams[id]);
      var r' := CloseRecv(r, id);
      PutBudget(r, id, r'.streams[id], r');
      SameRotation(r, r');
    }
  }

  lemma CloseSessionValid(r: Reg, id: nat)
    requires Valid(r)
    ensures Valid(CloseSession(r, id))
  {
    if id in r.streams {
      TotalRemove(r.streams, OutBytes, id);
      TotalRemove(r.streams, InBytes, id);
      DropRotation(r, id, CloseSession(r, id));
    }
  }
}
