/** The registry as the object the driver and the request handles update under its lock. */
module DatagramRegistry {
  import opened Bytes
  import opened D = Datagrams
  import Varint

  /** What a received Datagram led to. */
  datatype Routed = Ignored | Invalidated | Overflowed | Queued

  /** A queued packet is covered by both byte counts, so removing it cannot underflow. */
  lemma Dequeueable(r: Reg, id: nat)
    requires Budget(r) && Waiting(r, id)
    ensures |r.streams[id].outgoing[0]| <= r.streams[id].outBytes <= r.outgoing
  {
    TotalRemove(r.streams, OutBytes, id);
    assert EntryOk(r.streams[id]);
  }

  lemma Receivable(r: Reg, id: nat)
    requires Budget(r) && id in r.streams && r.streams[id].incoming != []
    ensures |r.streams[id].incoming[0]| <= r.streams[id].inBytes <= r.incoming
  {
    TotalRemove(r.streams, InBytes, id);
    assert EntryOk(r.streams[id]);
  }

  lemma Discardable(r: Reg, id: nat)
    requires Budget(r) && id in r.streams
    ensures r.streams[id].inBytes <= r.incoming && r.streams[id].outBytes <= r.outgoing
    ensures r.streams[id].inBytes <= SESSION_BYTES && r.streams[id].outBytes <= SESSION_BYTES
  {
    TotalRemove(r.streams, InBytes, id);
    TotalRemove(r.streams, OutBytes, id);
    assert EntryOk(r.streams[id]);
  }

  class Registry {
    /** Everything the lock guards. */
    var state: Reg

    constructor (maxSize: Option<nat>)
      ensures state == Empty(maxSize) && Valid(state)
    {
      state := Reg(map[], [], 0, 0, maxSize, false, false);
    }

    /** Stream IDs are fresh, so a registration never replaces a session. */
    method Register(id: nat, semantics: bool)
      requires Valid(state) && id !in state.streams
      modifies this
      ensures state == D.Register(old(state), id, semantics) && Valid(state)
    {
      RegisterValid(state, id, semantics);
      if !state.closed {
        state := state.(streams := state.streams[id := Entry(semantics, true, true, [], [], 0, 0)]);
      }
    }

    method Negotiated(enabled: bool)
      requires Valid(state)
      modifies this
      ensures state == old(state).(negotiated := enabled) && Valid(state)
    {
      state := state.(negotiated := enabled);
    }

    method SetMaxSize(maxSize: Option<nat>) returns (changed: bool)
      requires Valid(state)
      modifies this
      ensures state == old(state).(maxSize := maxSize) && Valid(state)
      ensures changed == (maxSize != old(state).maxSize)
    {
      changed := state.maxSize != maxSize;
      state := state.(maxSize := maxSize);
    }

    method Close()
      modifies this
      ensures state == CloseAll(old(state)) && Valid(state)
    {
      state := state.(closed := true);
      state := state.(incoming := 0, outgoing := 0);
      state := state.(ready := [], streams := map[]);
    }

    method Receive(id: nat, payload: seq<byte>, alive: bool) returns (what: Routed)
      requires Valid(state)
      modifies this
      ensures assert id in old(state).streams ==> EntryOk(old(state).streams[id]);
              state == D.Receive(old(state), id, payload, alive)
      ensures Valid(state)
      ensures what.Queued? ==>
                id in state.streams &&
                state.streams[id].incoming == old(state).streams[id].incoming + [payload]
      ensures !what.Queued? ==> state == old(state)
      ensures what.Invalidated? <==>
                id in state.streams && state.streams[id].recvOpen && alive && !state.streams[id].semantics
    {
      hide Total, Flatten, Rotation;
      ReceiveValid(state, id, payload, alive);
      var capacity := CONNECTION_BYTES - state.incoming;
      if id !in state.streams {
        return Ignored;
      }
      var e := state.streams[id];
      if !e.recvOpen || !alive {
        return Ignored;
      }
      if !e.semantics {
        return Invalidated;
      }
      Discardable(state, id);
      if |e.incoming| == PACKETS || |payload| > SESSION_BYTES - e.inBytes || |payload| > capacity {
        return Overflowed;
      }
      hide Budget;
      e := e.(incoming := e.incoming + [payload], inBytes := e.inBytes + |payload|);
      state := state.(streams := state.streams[id := e], incoming := state.incoming + |payload|);
      what := Queued;
    }

    /** The front session's oldest packet, after dropping rotation entries left behind by closes. */
    method Next() returns (packet: Option<Packet>)
      requires Budget(state)
      modifies this
      ensures (state, packet) == D.Next(old(state))
    {
      hide Total, Flatten, EntryOk;
      while state.ready != []
        invariant Budget(state) && D.Next(state) == D.Next(old(state))
        decreases |state.ready|
      {
        var id := state.ready[0];
        state := state.(ready := state.ready[1..]);
        if id !in state.streams {
          continue;
        }
        var e := state.streams[id];
        if e.outgoing == [] {
          continue;
        }
        Dequeueable(state, id);
        var p := e.outgoing[0];
        e := e.(outgoing := e.outgoing[1..], outBytes := e.outBytes - |p|);
        state := state.(streams := state.streams[id := e]);
        if e.outgoing != [] {
          state := state.(ready := state.ready + [id]);
        }
        state := state.(outgoing := state.outgoing - |p|);
        return Some(Packet(id, p));
      }
      packet := None;
    }

    /** Frames and queues one payload, or says why not without changing anything. */
    method TrySend(id: nat, payload: seq<byte>) returns (result: SendResult)
      requires Valid(state) && id / 4 < Varint.VARINT_LIMIT
      modifies this
      ensures assert id in old(state).streams ==> EntryOk(old(state).streams[id]);
              (state, result) == D.TrySend(old(state), id, payload)
      ensures Valid(state)
    {
      hide Total, Flatten, Rotation;
      if id !in state.streams || !state.streams[id].sendOpen {
        return Closed;
      }
      if state.maxSize.None? || !state.negotiated {
        return Unavailable;
      }
      var e := state.streams[id];
      var size := |payload| + PrefixSize(id);
      if size > state.maxSize.value || size > SESSION_BYTES {
        return TooLarge;
      }
      Discardable(state, id);
      if |e.outgoing| == PACKETS
         || size > SESSION_BYTES - e.outBytes
         || size > CONNECTION_BYTES - state.outgoing {
        return Full;
      }
      var packet := Frame(id, payload);
      EnqueueValid(state, id, packet);
      hide Budget, Frame;
      var empty := e.outgoing == [];
      e := e.(outgoing := e.outgoing + [packet], outBytes := e.outBytes + size);
      state := state.(streams := state.streams[id := e], outgoing := state.outgoing + size);
      if empty {
        state := state.(ready := state.ready + [id]);
      }
      result := Sent;
    }

    /** What `TrySend` would answer to a payload as large as the limit allows. */
    method Ready(id: nat) returns (result: SendResult)
      requires Valid(state)
      ensures assert id in state.streams ==> EntryOk(state.streams[id]);
              result == ReadyNow(state, id)
    {
      if id !in state.streams || !state.streams[id].sendOpen {
        return Closed;
      }
      if state.maxSize.None? || !state.negotiated {
        return Unavailable;
      }
      if state.maxSize.value < PrefixSize(id) {
        return TooLarge;
      }
      var e := state.streams[id];
      Discardable(state, id);
      var size := Min(state.maxSize.value, SESSION_BYTES);
      if |e.outgoing| == PACKETS
         || size > SESSION_BYTES - e.outBytes
         || size > CONNECTION_BYTES - state.outgoing {
        return Full;
      }
      result := Sent;
    }

    /** The next received payload; no payload and a closed receive half end the session. */
    method PollRecv(id: nat) returns (packet: Option<seq<byte>>, over: bool)
      requires Valid(state)
      modifies this
      ensures state == D.PollRecv(old(state), id) && Valid(state)
      ensures packet == if id in old(state).streams && old(state).streams[id].incoming != []
                        then Some(old(state).streams[id].incoming[0]) else None
      ensures over <==> packet.None? && (id !in state.streams || !state.streams[id].recvOpen)
    {
      hide Total, Flatten, Rotation;
      PollRecvValid(state, id);
      if id !in state.streams {
        return None, true;
      }
      var e := state.streams[id];
      if e.incoming == [] {
        return None, !e.recvOpen;
      }
      Receivable(state, id);
      hide Budget;
      var p := e.incoming[0];
      e := e.(incoming := e.incoming[1..], inBytes := e.inBytes - |p|);
      state := state.(streams := state.streams[id := e], incoming := state.incoming - |p|);
      packet, over := Some(p), false;
    }

    method CloseSend(id: nat)
      requires Valid(state)
      modifies this
      ensures state == D.CloseSend(old(state), id) && Valid(state)
    {
      hide Total, Flatten, Rotation;
      CloseSendValid(state, id);
      if id in state.streams {
        Discardable(state, id);
        hide Budget;
        var e := state.streams[id];
        state := state.(streams := state.streams[id := e.(sendOpen := false, outBytes := 0, outgoing := [])]);
        state := state.(outgoing := state.outgoing - e.outBytes);
        state := state.(ready := Without(state.ready, id));
      }
    }

    method CloseRecv(id: nat)
      requires Valid(state)
      modifies this
      ensures state == D.CloseRecv(old(state), id) && Valid(state)
    {
      hide Total, Flatten, Rotation;
      CloseRecvValid(state, id);
      if id in state.streams {
        Discardable(state, id);
        hide Budget;
        var e := state.streams[id];
        state := state.(streams := state.streams[id := e.(recvOpen := false, inBytes := 0, incoming := [])]);
        state := state.(incoming := state.incoming - e.inBytes);
      }
    }

    method CloseSession(id: nat)
      requires Valid(state)
      modifies this
      ensures state == D.CloseSession(old(state), id) && Valid(state)
    {
      hide Total, Flatten, Rotation;
      CloseSessionValid(state, id);
      if id in state.streams {
        Discardable(state, id);
        hide Budget;
        var e := state.streams[id];
        state := state.(streams := state.streams - {id});
        state := state.(incoming := state.incoming - e.inBytes, outgoing := state.outgoing - e.outBytes);
        state := state.(ready := Without(state.ready, id));
      }
    }
  }
}
