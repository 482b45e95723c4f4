/**
 Handing requests to a connection: the queue between the callers and the dispatcher, the gate
 that holds extended CONNECT requests until the server's SETTINGS are known, and the promises
 every accepted request is answered through.
 */
module Handoff {
  import opened Bytes

  /** How a promise is resolved; a returned request comes back with its error. */
  datatype Answer = Response | Lost | Returned

  datatype Result = Result(id: nat, answer: Answer)

  function Ids(rs: seq<Result>): seq<nat> {
    seq(|rs|, i requires 0 <= i < |rs| => rs[i].id)
  }

  function All(ids: seq<nat>, answer: Answer): (rs: seq<Result>)
    ensures Ids(rs) == ids
    ensures forall r | r in rs :: r.answer == answer && r.id in ids
  {
    seq(|ids|, i requires 0 <= i < |ids| => Result(ids[i], answer))
  }

  function Waiting(parked: seq<nat>, canceled: set<nat>): seq<nat> {
    if parked == [] then []
    else (if parked[0] in canceled then [] else [parked[0]]) + Waiting(parked[1..], canceled)
  }

  function GivenUp(parked: seq<nat>, canceled: set<nat>): seq<nat> {
    if parked == [] then []
    else (if parked[0] in canceled then [parked[0]] else []) + GivenUp(parked[1..], canceled)
  }

  /** Which parked requests stay and which leave once the settings are looked at. */
  function Settled(parked: seq<nat>, settings: Option<bool>, canceled: set<nat>): (seq<nat>, seq<nat>) {
    match settings
    case Some(true) => (parked, [])
    case Some(false) => ([], parked)
    case None => (Waiting(parked, canceled), GivenUp(parked, canceled))
  }

  /** How often a request number occurs. */
  function N(s: seq<nat>, id: nat): nat { multiset(s)[id] }

  lemma Sums(a: seq<nat>, b: seq<nat>, id: nat)
    ensures N(a + b, id) == N(a, id) + N(b, id)
    ensures N([], id) == 0 && N([id], id) == 1
    ensures forall x | x != id :: N([x], id) == 0
  {
  }

  lemma Front(q: seq<nat>, id: nat)
    requires q != []
    ensures N(q, id) == N([q[0]], id) + N(q[1..], id)
  {
    Sums([q[0]], q[1..], id);
    assert q == [q[0]] + q[1..];
  }

  lemma {:induction false} SplitParked(parked: seq<nat>, canceled: set<nat>, id: nat)
    ensures N(parked, id) == N(Waiting(parked, canceled), id) + N(GivenUp(parked, canceled), id)
  {
    if parked != [] {
      SplitParked(parked[1..], canceled, id);
      Front(parked, id);
      Sums([parked[0]], Waiting(parked[1..], canceled), id);
      Sums([parked[0]], GivenUp(parked[1..], canceled), id);
      hide N;
      assert [] + Waiting(parked[1..], canceled) == Waiting(parked[1..], canceled);
      assert [] + GivenUp(parked[1..], canceled) == GivenUp(parked[1..], canceled);
    }
  }

  lemma {:induction false} WaitingAppend(a: seq<nat>, x: nat, canceled: set<nat>)
    ensures Waiting(a + [x], canceled) == Waiting(a, canceled) + (if x in canceled then [] else [x])
    ensures GivenUp(a + [x], canceled) == GivenUp(a, canceled) + (if x in canceled then [x] else [])
  {
    if a == [] {
      assert a + [x] == [x] && [x][1..] == [];
    } else {
      assert (a + [x])[1..] == a[1..] + [x];
      WaitingAppend(a[1..], x, canceled);
    }
  }

  // ----- the gate -----

  datatype Verdict = Through | Held | Refused

  class Gate {
    var parked: seq<nat>
    /** The flag the connection task reads. */
    var flag: bool

    constructor ()
      ensures Valid() && parked == []
    {
      parked, flag := [], false;
    }

    /** The shared flag says whether requests are parked. */
    predicate Valid()
      reads this
    {
      flag == (parked != [])
    }

    method Admit(id: nat, extended: bool, settings: Option<bool>) returns (v: Verdict)
      requires Valid()
      modifies this
      ensures Valid()
      ensures parked == if v.Held? then old(parked) + [id] else old(parked)
      ensures v.Held? <==> extended && settings.None?
      ensures v.Refused? <==> extended && settings == Some(false)
    {
      if !extended {
        return Through;
      }
      match settings
      case Some(enabled) => v := if enabled then Through else Refused;
      case None =>
        parked := parked + [id];
        flag := true;
        v := Held;
    }

    method PollSettle(settings: Option<bool>, canceled: set<nat>) returns (out: seq<nat>)
      requires Valid()
      modifies this
      ensures Valid() && (parked, out) == Settled(old(parked), settings, canceled)
    {
      out := [];
      if parked == [] {
        return;
      }
      match settings {
        case Some(enabled) =>
          if !enabled {
            out, parked := parked, [];
          }
        case None =>
          var kept, i := [], 0;
          while i < |parked|
            invariant i <= |parked| && parked == old(parked)
            invariant kept == Waiting(parked[..i], canceled) && out == GivenUp(parked[..i], canceled)
          {
            WaitingAppend(parked[..i], parked[i], canceled);
            assert parked[..i + 1] == parked[..i] + [parked[i]];
            if parked[i] in canceled {
              out := out + [parked[i]];
            } else {
              kept := kept + [parked[i]];
            }
            i := i + 1;
          }
          assert parked[..i] == parked;
          parked := kept;
      }
      flag := parked != [];
    }

    method PopEnabled(settings: Option<bool>) returns (id: Option<nat>)
      requires Valid()
      modifies this
      ensures Valid()
      ensures id.Some? <==> settings == Some(true) && old(parked) != []
      ensures old(parked) == (if id.Some? then [id.value] else []) + parked
    {
      if settings != Some(true) {
        return None;
      }
      if parked == [] {
        id := None;
      } else {
        id, parked := Some(parked[0]), parked[1..];
      }
      flag := parked != [];
    }

    method Release() returns (out: seq<nat>)
      requires Valid()
      modifies this
      ensures Valid() && parked == [] && out == old(parked)
    {
      out, parked := parked, [];
      flag := false;
    }
  }

  // ----- the whole hand-off -----

  /** Requests on their way: each field holds request numbers. */
  datatype Places = Places(
    queue: seq<nat>,
    parked: seq<nat>,
    taken: Option<nat>,
    opening: Option<nat>,
    flight: set<nat>,
    results: seq<Result>)

  datatype World = World(
    places: Places,
    accepted: set<nat>,
    extended: set<nat>,
    canceled: set<nat>,
    sent: set<nat>,
    rejected: set<nat>,
    settings: Option<bool>,
    flag: bool,
    open: bool,
    running: bool)

  const START: World := World(Places([], [], None, None, {}, []), {}, {}, {}, {}, {}, None, false, true, true)

  datatype Event =
    | TrySend(id: nat, extended: bool)
    | GiveUp(id: nat)
    | Settings(enabled: bool)
    | Settle
    | Take
    | DropCanceled
    | Admit
    | Reject
    | SendFails
    | SendOk(pending: bool)
    | Opened
    | Answered(id: nat, ok: bool)
    | ConnectionFails
    | CancelQueued
    | Ends

  function Opt(x: Option<nat>): seq<nat> { if x.Some? then [x.value] else [] }

  /** Whether the taken request has passed the gate. */
  predicate Passed(w: World) {
    w.places.taken.Some? && (w.places.taken.value in w.extended ==> w.settings == Some(true))
  }

  predicate Enabled(w: World, e: Event) {
    match e
    case TrySend(id, _) => id !in w.accepted
    case GiveUp(id) => id in w.accepted
    case Settings(_) => true
    case Settle => w.running && w.places.taken.None?
    case Take =>
      w.running && w.places.taken.None? && w.places.opening.None?
      && ((w.settings == Some(true) && w.places.parked != []) || w.places.queue != [])
    case DropCanceled => w.places.taken.Some? && w.places.taken.value in w.canceled
    case Admit => w.places.taken.Some? && !Passed(w)
    case Reject => Passed(w)
    case SendFails => Passed(w)
    case SendOk(_) => Passed(w) && w.places.opening.None?
    case Opened => w.places.opening.Some?
    case Answered(id, _) => id in w.places.flight
    case ConnectionFails => w.running && w.places.taken.None?
    case CancelQueued => w.running && w.open && w.places.taken.None? && w.places.queue != []
    case Ends => w.running && w.places.taken.None?
  }

  function Resolve(p: Places, ids: seq<nat>, answer: Answer): Places {
    p.(results := p.results + All(ids, answer))
  }

  /** Dropping the dispatcher returns what it had not sent and fails a stream still opening. */
  function Dropped(w: World): World {
    var p := w.places;
    var p' := Resolve(Resolve(p, p.parked + p.queue, Returned), Opt(p.opening), Lost);
    w.(places := p'.(parked := [], queue := [], opening := None), flag := false, open := false, running := false)
  }

  function TakeNext(w: World): World
    requires Enabled(w, Take)
  {
    var p := w.places;
    if w.settings == Some(true) && p.parked != [] then
      w.(places := p.(taken := Some(p.parked[0]), parked := p.parked[1..]), flag := p.parked[1..] != [])
    else w.(places := p.(taken := Some(p.queue[0]), queue := p.queue[1..]))
  }

  function AdmitTaken(w: World): World
    requires Enabled(w, Admit)
  {
    var p := w.places.(taken := None);
    var id := w.places.taken.value;
    if w.settings.None? then w.(places := p.(parked := p.parked + [id]), flag := true)
    else w.(places := Resolve(p, [id], Returned))
  }

  function SettleParked(w: World): World {
    var p := w.places;
    if p.parked == [] then w
    else
      var (kept, out) := Settled(p.parked, w.settings, w.canceled);
      w.(places := Resolve(p, out, Returned).(parked := kept), flag := kept != [])
  }

  function Send(w: World, pending: bool): World
    requires Enabled(w, SendOk(pending))
  {
    var id := w.places.taken.value;
    var p := w.places.(taken := None);
    w.(sent := w.sent + {id},
       places := if pending then p.(opening := Some(id)) else p.(flight := p.flight + {id}))
  }

  function Step(w: World, e: Event): World
    requires Enabled(w, e)
  {
    var p := w.places;
    match e
    case TrySend(id, extended) =>
      if !w.open then w
      else w.(accepted := w.accepted + {id}, places := p.(queue := p.queue + [id]),
              extended := if extended then w.extended + {id} else w.extended)
    case GiveUp(id) => w.(canceled := w.canceled + {id})
    case Settings(enabled) => w.(settings := Some(enabled))
    case Settle => SettleParked(w)
    case Take => TakeNext(w)
    case DropCanceled => w.(places := Resolve(p, Opt(p.taken), Lost).(taken := None))
    case Admit => AdmitTaken(w)
    case Reject =>
      w.(places := Resolve(p, Opt(p.taken), Lost).(taken := None), rejected := w.rejected + {p.taken.value})
    case SendFails =>
      w.(places := Resolve(p, Opt(p.taken), Lost).(taken := None), sent := w.sent + {p.taken.value})
    case SendOk(pending) => Send(w, pending)
    case Opened => w.(places := p.(opening := None, flight := p.flight + {p.opening.value}))
    case Answered(id, ok) =>
      w.(places := Resolve(p, [id], if ok then Response else Lost).(flight := p.flight - {id}))
    case ConnectionFails =>
      var p' := Resolve(p, p.parked, Returned).(parked := []);
      Dropped(w.(places := if p.opening.Some?
                           then p'.(opening := None, flight := p.flight + {p.opening.value}) else p'))
    case CancelQueued =>
      w.(places := Resolve(p, [p.queue[0]], Returned).(queue := p.queue[1..]), open := false)
    case Ends => Dropped(w)
  }

  // ----- conservation -----

  /** In how many places a request is. */
  function Copies(p: Places, id: nat): nat {
    N(p.queue, id) + N(p.parked, id) + N(Opt(p.taken), id) + N(Opt(p.opening), id)
    + (if id in p.flight then 1 else 0) + N(Ids(p.results), id)
  }

  /** Every accepted request is in exactly one place, and answered at most once. */
  ghost predicate Conserved(w: World) {
    forall id :: Copies(w.places, id) == if id in w.accepted then 1 else 0
  }

  /** What is unsent, or was returned, never reached the encoder or `send_request`. */
  predicate Unsent(w: World) {
    && (forall id | id in w.places.queue :: id !in w.sent)
    && (forall id | id in w.places.parked :: id !in w.sent)
    && (w.places.taken.Some? ==> w.places.taken.value !in w.sent)
    && (forall r | r in w.places.results && r.answer.Returned? :: r.id !in w.sent)
    && w.sent <= w.accepted
  }

  /** A request is lost only if it was sent, given up by its caller or itself invalid. */
  predicate Explained(w: World) {
    && w.places.flight <= w.sent
    && (w.places.opening.Some? ==> w.places.opening.value in w.sent)
    && (forall r | r in w.places.results ::
          && (r.answer.Response? ==> r.id in w.sent)
          && (r.answer.Lost? ==> r.id in w.sent || r.id in w.canceled || r.id in w.rejected))
  }

  predicate Flagged(w: World) {
    w.flag == (w.places.parked != [])
  }

  ghost predicate Inv(w: World) {
    Conserved(w) && Unsent(w) && Explained(w) && Flagged(w)
  }

  lemma ResolveMoves(p: Places, ids: seq<nat>, answer: Answer, id: nat)
    ensures Copies(Resolve(p, ids, answer), id) == Copies(p, id) + N(ids, id)
  {
    var rs := All(ids, answer);
    assert Ids(p.results + rs) == Ids(p.results) + Ids(rs);
    Sums(Ids(p.results), Ids(rs), id);
  }

  lemma DroppedKeeps(w: World, id: nat)
    ensures Copies(Dropped(w).places, id) == Copies(w.places, id)
  {
    hide N, Ids;
    var p := w.places;
    ResolveMoves(p, p.parked + p.queue, Returned, id);
    ResolveMoves(Resolve(p, p.parked + p.queue, Returned), Opt(p.opening), Lost, id);
    Sums(p.parked, p.queue, id);
  }

  lemma GateKeeps(w: World, e: Event, id: nat)
    requires Enabled(w, e) && (e.Settle? || e.Take? || e.Admit?)
    ensures Copies(Step(w, e).places, id) == Copies(w.places, id)
  {
    hide N, Ids;
    var p := w.places;
    Sums([], [], id);
    if e.Settle? {
      var (kept, out) := Settled(p.parked, w.settings, w.canceled);
      ResolveMoves(p, out, Returned, id);
      SplitParked(p.parked, w.canceled, id);
    } else if e.Take? {
      if w.settings == Some(true) && p.parked != [] {
        Front(p.parked, id);
      } else {
        Front(p.queue, id);
      }
    } else {
      ResolveMoves(p.(taken := None), [p.taken.value], Returned, id);
      Sums(p.parked, [p.taken.value], id);
    }
  }

  lemma SendKeeps(w: World, e: Event, id: nat)
    requires Conserved(w) && Enabled(w, e)
    requires e.SendOk? || e.Opened? || e.Answered? || e.DropCanceled? || e.Reject? || e.SendFails?
    ensures Copies(Step(w, e).places, id) == Copies(w.places, id)
  {
    hide N, Ids;
    var p := w.places;
    Sums([], [], id);
    assert Copies(p, id) <= 1;
    match e {
      case Answered(x, ok) =>
        ResolveMoves(p, [x], if ok then Response else Lost, id);
      case SendOk(_) =>
      case Opened =>
      case _ =>
        ResolveMoves(p, Opt(p.taken), Lost, id);
    }
  }

  lemma EndKeeps(w: World, e: Event, id: nat)
    requires Conserved(w) && Enabled(w, e) && (e.ConnectionFails? || e.CancelQueued? || e.Ends?)
    ensures Copies(Step(w, e).places, id) == Copies(w.places, id)
  {
    hide N, Ids;
    var p := w.places;
    Sums([], [], id);
    match e {
      case ConnectionFails =>
        assert Copies(p, id) <= 1;
        ResolveMoves(p, p.parked, Returned, id);
        var p' := Resolve(p, p.parked, Returned).(parked := []);
        DroppedKeeps(w.(places := if p.opening.Some?
                                  then p'.(opening := None, flight := p.flight + {p.opening.value}) else p'), id);
      case CancelQueued =>
        ResolveMoves(p, [p.queue[0]], Returned, id);
        Front(p.queue, id);
      case Ends => DroppedKeeps(w, id);
    }
  }

  lemma TrySendKeeps(w: World, e: Event, id: nat)
    requires Conserved(w) && Enabled(w, e) && e.TrySend?
    ensures Copies(Step(w, e).places, id) == if id in Step(w, e).accepted then 1 else 0
  {
    hide N, Ids;
    assert Copies(w.places, id) == if id in w.accepted then 1 else 0;
    Sums(w.places.queue, [e.id], id);
  }

  lemma OthersAccept(w: World, e: Event)
    requires Enabled(w, e) && !e.TrySend?
    ensures Step(w, e).accepted == w.accepted
    ensures e.GiveUp? || e.Settings? ==> Step(w, e).places == w.places
  {
    hide N, Ids, All;
  }

  lemma StepConserved(w: World, e: Event)
    requires Conserved(w) && Enabled(w, e)
    ensures Conserved(Step(w, e))
  {
    hide Copies, Step, Enabled;
    if !e.TrySend? {
      OthersAccept(w, e);
    }
    forall id
      ensures Copies(Step(w, e).places, id) == if id in Step(w, e).accepted then 1 else 0
    {
      if e.Settle? || e.Take? || e.Admit? {
        GateKeeps(w, e, id);
      } else if e.ConnectionFails? || e.CancelQueued? || e.Ends? {
        EndKeeps(w, e, id);
      } else if e.TrySend? {
        TrySendKeeps(w, e, id);
      } else if !e.GiveUp? && !e.Settings? {
        SendKeeps(w, e, id);
      }
    }
  }

  // ----- what was never sent -----

  lemma InPlace(s: seq<nat>, id: nat)
    ensures id in s <==> N(s, id) > 0
  {
  }

  /** A request taken from the queue or the gate is nowhere else. */
  lemma OnlyTaken(w: World, id: nat)
    requires Conserved(w) && w.places.taken == Some(id)
    ensures id !in w.places.queue && id !in w.places.parked && id in w.accepted
    ensures forall r | r in w.places.results :: r.id != id
  {
    var p := w.places;
    assert Copies(p, id) == if id in w.accepted then 1 else 0;
    assert N(Opt(p.taken), id) == 1;
    InPlace(p.queue, id);
    InPlace(p.parked, id);
    InPlace(Ids(p.results), id);
    forall r | r in p.results
      ensures r.id != id
    {
      var i :| 0 <= i < |p.results| && p.results[i] == r;
      assert Ids(p.results)[i] == r.id;
    }
  }

  lemma SendUnsent(w: World, e: Event)
    requires Conserved(w) && Unsent(w) && Enabled(w, e) && (e.SendOk? || e.SendFails?)
    ensures Unsent(Step(w, e))
  {
    OnlyTaken(w, w.places.taken.value);
    hide Conserved, Ids;
  }

  lemma {:induction false} GivenUpParked(parked: seq<nat>, canceled: set<nat>)
    ensures forall id | id in Waiting(parked, canceled) || id in GivenUp(parked, canceled) :: id in parked
  {
    if parked != [] {
      var rest := parked[1..];
      GivenUpParked(rest, canceled);
      assert parked == [parked[0]] + rest;
      assert forall id | id in Waiting(parked, canceled) :: id == parked[0] || id in Waiting(rest, canceled);
      assert forall id | id in GivenUp(parked, canceled) :: id == parked[0] || id in GivenUp(rest, canceled);
    }
  }

  lemma DroppedUnsent(w: World)
    requires Unsent(w)
    ensures Unsent(Dropped(w))
  {
    hide Ids;
  }

  lemma GateUnsent(w: World, e: Event)
    requires Unsent(w) && Enabled(w, e) && (e.Settle? || e.Take? || e.Admit?)
    ensures Unsent(Step(w, e))
  {
    hide Ids, Waiting, GivenUp;
    GivenUpParked(w.places.parked, w.canceled);
  }

  lemma EndUnsent(w: World, e: Event)
    requires Unsent(w) && Enabled(w, e) && (e.ConnectionFails? || e.CancelQueued? || e.Ends?)
    ensures Unsent(Step(w, e))
  {
    hide Ids;
    var p := w.places;
    match e {
      case ConnectionFails =>
        var p' := Resolve(p, p.parked, Returned).(parked := []);
        DroppedUnsent(w.(places := if p.opening.Some?
                                   then p'.(opening := None, flight := p.flight + {p.opening.value}) else p'));
      case CancelQueued =>
      case Ends => DroppedUnsent(w);
    }
  }

  lemma QueueUnsent(w: World, e: Event)
    requires Conserved(w) && Unsent(w) && Enabled(w, e) && !e.SendOk? && !e.SendFails?
    ensures Unsent(Step(w, e))
  {
    hide Conserved, Ids;
    if e.Settle? || e.Take? || e.Admit? {
      GateUnsent(w, e);
      hide Step;
    } else if e.ConnectionFails? || e.CancelQueued? || e.Ends? {
      EndUnsent(w, e);
      hide Step;
    }
  }

  lemma StepInv(w: World, e: Event)
    requires Inv(w) && Enabled(w, e)
    ensures Inv(Step(w, e))
  {
    StepConserved(w, e);
    if e.SendOk? || e.SendFails? {
      SendUnsent(w, e);
    } else {
      QueueUnsent(w, e);
    }
    StepExplained(w, e);
    StepFlagged(w, e);
    hide Conserved, Unsent, Explained, Flagged, Step;
  }

  lemma DroppedExplained(w: World)
    requires Explained(w)
    ensures Explained(Dropped(w))
  {
    hide Ids;
  }

  lemma StepExplained(w: World, e: Event)
    requires Explained(w) && Enabled(w, e)
    ensures Explained(Step(w, e))
  {
    hide Ids, Settled;
    var p := w.places;
    if e.ConnectionFails? {
      var p' := Resolve(p, p.parked, Returned).(parked := []);
      DroppedExplained(w.(places := if p.opening.Some?
                                    then p'.(opening := None, flight := p.flight + {p.opening.value}) else p'));
      hide Dropped, Explained;
    } else if e.Ends? {
      DroppedExplained(w);
      hide Dropped, Explained;
    }
  }

  lemma StepFlagged(w: World, e: Event)
    requires Flagged(w) && Enabled(w, e)
    ensures Flagged(Step(w, e))
  {
    hide All, Ids, Waiting, GivenUp;
  }

  // ----- runs -----

  predicate Reaches(w: World, es: seq<Event>, w': World)
    decreases |es|
  {
    if es == [] then w' == w
    else Enabled(w, es[0]) && Reaches(Step(w, es[0]), es[1..], w')
  }

  lemma {:induction false} ReachesInv(w: World, es: seq<Event>, w': World)
    requires Inv(w) && Reaches(w, es, w')
    ensures Inv(w')
    decreases |es|
  {
    hide Inv, Step, Enabled;
    if es != [] {
      StepInv(w, es[0]);
      ReachesInv(Step(w, es[0]), es[1..], w');
    }
  }

  /**
   In every run, each accepted request is in exactly one of queued, parked, taken, opening, in
   flight or answered, and answered at most once. One that came back with its error never
   reached the encoder or `send_request`; one that was neither sent, given up nor invalid is
   not lost. The shared flag says whether any is parked.
   */
  lemma EveryRequest(es: seq<Event>, w: World, id: nat)
    requires Reaches(START, es, w)
    ensures id in w.accepted ==> Copies(w.places, id) == 1
    ensures id !in w.accepted ==> Copies(w.places, id) == 0
    ensures Result(id, Returned) in w.places.results ==> id !in w.sent
    ensures Result(id, Response) in w.places.results ==> id in w.sent
    ensures Result(id, Lost) in w.places.results ==> id in w.sent || id in w.canceled || id in w.rejected
    ensures w.flag == (w.places.parked != [])
  {
    StartInv();
    ReachesInv(START, es, w);
    hide Reaches, Copies;
  }

  lemma StartInv()
    ensures Inv(START)
  {
    assert Ids([]) == [];
  }

  /** Once the dispatcher has ended and no stream is left, every accepted request is answered. */
  lemma AllAnswered(es: seq<Event>, w: World, id: nat)
    requires Reaches(START, es, w) && !w.running && w.places.flight == {} && id in w.accepted
    ensures N(Ids(w.places.results), id) == 1
  {
    EveryRequest(es, w, id);
    EndedEmpty(START, es, w);
    hide Reaches, Ids;
  }

  predicate Over(w: World) {
    !w.running ==>
      !w.open && w.places.queue == [] && w.places.parked == [] && w.places.taken.None? && w.places.opening.None?
  }

  lemma {:induction false} EndedEmpty(w: World, es: seq<Event>, w': World)
    requires Over(w) && Reaches(w, es, w')
    ensures Over(w')
    decreases |es|
  {
    if es != [] {
      OverStep(w, es[0]);
      hide Over, Step, Enabled;
      EndedEmpty(Step(w, es[0]), es[1..], w');
    }
  }

  lemma OverStep(w: World, e: Event)
    requires Over(w) && Enabled(w, e)
    ensures Over(Step(w, e))
  {
    hide All, Ids, Waiting, GivenUp;
  }
}
