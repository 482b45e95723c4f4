/** The driver and the request handles as objects over one registry, one critical section at a time. */
module DatagramDriver {
  import opened Bytes
  import D = Datagrams
  import R = DatagramRegistry
  import opened S = DatagramSchedule

  class Driver {
    const registry: R.Registry
    /** The packet fetched and not yet resolved, and whether its session was seen open. */
    var pending: Option<D.Packet>
    var checked: bool
    /** The stream IDs registered, the packets admitted to a queue, and those the transport took. */
    var used: set<nat>
    var accepted: seq<D.Packet>
    var sent: seq<D.Packet>
    var taken: seq<D.Packet>
    var resolved: seq<D.Packet>

    constructor (maxSize: Option<nat>)
      ensures fresh(registry) && View() == Start(maxSize) && Valid()
    {
      registry := new R.Registry(maxSize);
      pending, checked, used := None, false, {};
      accepted, taken, resolved, sent := [], [], [], [];
      new;
      StartInv(maxSize);
    }

    function View(): World
      reads this, registry
    {
      World(registry.state, pending, checked, used, accepted, taken, resolved, sent)
    }

    ghost predicate Valid()
      reads this, registry
    {
      Inv(View())
    }

    /** One critical section of a request handle or of the receive half. */
    method Handle(op: Op)
      requires D.Valid(registry.state) && Allowed(registry.state.streams.Keys, op)
      modifies registry, this`accepted
      ensures registry.state == Act(old(registry.state), op)
      ensures accepted == old(accepted) + Admitted(old(registry.state), op)
    {
      hide D.Valid, D.Register, D.Receive, D.PollRecv, D.CloseSend, D.CloseRecv, D.CloseSession, D.CloseAll;
      ghost var r := registry.state;
      assert op.Send? && op.id in r.streams ==> D.EntryOk(r.streams[op.id]) by { Entries(r, op); }
      assert op.Receive? && op.id in r.streams ==> D.EntryOk(r.streams[op.id]) by { Entries(r, op); }
      assert accepted + [] == accepted;
      match op {
        case Register(id, semantics) => registry.Register(id, semantics);
        case Send(id, payload) =>
          var result := registry.TrySend(id, payload);
          if result.Sent? {
            accepted := accepted + [D.Packet(id, D.Frame(id, payload))];
          }
        case Receive(id, payload, alive) =>
          var _ := registry.Receive(id, payload, alive);
        case PollRecv(id) =>
          var _, _ := registry.PollRecv(id);
        case CloseSend(id) => registry.CloseSend(id);
        case CloseRecv(id) => registry.CloseRecv(id);
        case CloseSession(id) => registry.CloseSession(id);
        case CloseAll => registry.Close();
        case SetMax(maxSize) =>
          var _ := registry.SetMaxSize(maxSize);
        case Negotiate(enabled) => registry.Negotiated(enabled);
      }
    }

    /** The held packet leaves the driver. */
    method Settle(took: bool)
      requires pending.Some?
      modifies this
      ensures View() == Resolve(old(View()), took)
    {
      resolved := resolved + [pending.value];
      if took {
        sent := sent + [pending.value];
      }
      pending, checked := None, false;
    }

    /** Any step of the driver or a handle is the scheduled one, and keeps every invariant. */
    method Iterate(e: Event)
      requires Valid() && Enabled(View(), e)
      modifies this, registry
      ensures View() == Step(old(View()), e) && Valid()
    {
      StepInv(View(), e);
      hide Inv, Act, Admitted, D.Valid, D.Next;
      ghost var w := View();
      SoundInv(w);
      match e {
        case Do(op) =>
          Handle(op);
          used := if op.Register? then used + {op.id} else used;
        case Fetch =>
          pending := registry.Next();
          if pending.Some? {
            taken := taken + [pending.value];
          }
        case Check =>
          var id := pending.value.id;
          if id in registry.state.streams && registry.state.streams[id].sendOpen {
            checked := true;
          } else {
            Settle(false);
          }
        case Offer(outcome) =>
          if outcome.Blocked? {
            checked := false;
          } else {
            Settle(outcome.Taken?);
          }
      }
    }
  }

  lemma Entries(r: D.Reg, op: Op)
    requires D.Valid(r)
    ensures (op.Send? || op.Receive?) && op.id in r.streams ==> D.EntryOk(r.streams[op.id])
  {
  }

  lemma SoundInv(w: World)
    requires Inv(w)
    ensures Sound(w) && D.Budget(w.reg)
  {
  }

  lemma {:induction false} ReachesPush(w: World, es: seq<Event>, w': World, e: Event)
    requires Reaches(w, es, w') && Sound(w') && Enabled(w', e)
    ensures Reaches(w, es + [e], Step(w', e))
    decreases |es|
  {
    hide Step, Enabled, Sound;
    if es == [] {
      assert es + [e] == [e] && [e][1..] == [];
    } else {
      assert (es + [e])[1..] == es[1..] + [e];
      ReachesPush(Step(w, es[0]), es[1..], w', e);
    }
  }

  /**
   Drives a new registry through any list of steps, up to one that cannot happen: what the
   transport took of a session is what was admitted for it, in that order and none twice.
   */
  method Drive(maxSize: Option<nat>, events: seq<Event>)
    returns (done: nat, accepted: seq<D.Packet>, sent: seq<D.Packet>, ghost end: World)
    ensures done <= |events| && Reaches(Start(maxSize), events[..done], end)
    ensures done < |events| ==> !Enabled(end, events[done])
    ensures end.accepted == accepted && end.sent == sent
    ensures forall id :: Subsequence(Of(sent, id), Of(accepted, id))
  {
    hide Inv, Enabled, Step, Reaches, Sound, Subsequence, Of;
    var driver := new Driver(maxSize);
    done := 0;
    Stay(Start(maxSize));
    assert events[..0] == [];
    while done < |events| && Enabled(driver.View(), events[done])
      invariant done <= |events| && fresh(driver) && fresh(driver.registry) && driver.Valid()
      invariant Reaches(Start(maxSize), events[..done], driver.View())
      decreases |events| - done
    {
      SoundInv(driver.View());
      ReachesPush(Start(maxSize), events[..done], driver.View(), events[done]);
      assert events[..done + 1] == events[..done] + [events[done]];
      driver.Iterate(events[done]);
      done := done + 1;
    }
    end := driver.View();
    accepted, sent := driver.accepted, driver.sent;
    forall id ensures Subsequence(Of(sent, id), Of(accepted, id)) {
      EveryRun(maxSize, events[..done], end, id);
    }
  }

  lemma Stay(w: World)
    ensures Reaches(w, [], w)
  {
  }
}
