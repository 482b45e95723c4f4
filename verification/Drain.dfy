/**
 Admission and drain of an HTTP/3 connection: request handles, reservations, permits and the
 connection task's idle check, as one transition per atomic operation. Every interleaving of
 handles, requests, shutdown callers and the task is a list of events.
 */
module Drain {
  import opened Bytes

  /** Where one request handle is in a call that touches the shared counters. */
  datatype Handle =
    | Live                    // usable
    | Calling                 // saw no drain, has not reserved yet
    | Dropped(last: bool)     // gave up its count; the last one still has to drain
    | Draining(wake: bool)    // swapped the flag, still has to wake the driver
    | Gone

  /** A request from its reservation to the end of its exchange. */
  datatype Phase =
    | Reserved                // counted as reserved
    | Assigned                // the semaphore chose it, it has not run since
    | Counting                // counted as active, reservation not yet returned
    | Admitted(permit: bool)  // counted as active only
    | Leaving                 // uncounted, has not looked at the drain yet
    | Waking                  // saw the drain, has not woken the driver yet
    | Done

  /** A caller inside `shutdown`; `open` is what it first read of admission. */
  datatype Shutdown =
    | Entered
    | Read(open: bool)
    | Shut(open: bool)
    | Swapped(open: bool, wake: bool)
    | Last(open: bool)
    | Returned

  /** The connection task; the reads of one idle check are separate steps. */
  datatype Task =
    | Parked
    | Polling
    | Registered
    | SawDraining
    | SawReserved(reserved: nat)
    | SawIdle(closed: bool)
    | Closing(closed: bool)

  datatype Shared = Shared(
    senders: nat,
    reserved: nat,
    active: nat,
    available: nat,
    closed: bool,
    draining: bool,
    handles: seq<Handle>,
    requests: seq<Phase>,
    shutdowns: seq<Shutdown>,
    task: Task,
    registered: bool,
    notified: bool)

  datatype HandleOp = Clone | BeginCall | Reserve | DropHandle | SwapDrain | WakeDrain

  datatype RequestOp =
    | Assign | Unassign | CountActive | FreeReservation
    | ReleasePermit | DropRequest | CheckDrain | WakeDone

  datatype TaskOp = BeginPoll | Register | ReadDraining | ReadReserved | ReadClosed | ReadActive

  datatype Event =
    | OnHandle(h: nat, hop: HandleOp)
    | OnRequest(r: nat, rop: RequestOp)
    | EnterShutdown
    | StepShutdown(c: nat)
    | OnTask(top: TaskOp)

  function Init(limit: nat): Shared {
    Shared(1, 0, 0, limit, false, false, [Live], [], [], Polling, false, false)
  }

  // ----- counting -----

  predicate Counted(h: Handle) { h.Live? || h.Calling? }

  predicate Pre(p: Phase) { p.Reserved? || p.Assigned? || p.Counting? }

  predicate IsActive(p: Phase) { p.Counting? || p.Admitted? }

  predicate Holds(p: Phase) { p.Assigned? || p.Counting? || p == Admitted(true) }

  predicate Finished(p: Phase) { p.Leaving? || p.Waking? || p.Done? }

  // ----- transitions -----

  /** An atomic waker takes its registration and schedules one poll, or does nothing. */
  function Wake(s: Shared): Shared {
    if s.registered then s.(registered := false, notified := true) else s
  }

  function WakeIf(s: Shared, wake: bool): Shared {
    if wake then Wake(s) else s
  }

  predicate HandleReady(s: Shared, x: Handle, op: HandleOp) {
    match op
    case Clone => x.Live?
    case BeginCall => x.Live?
    case Reserve => x.Calling?
    case DropHandle => x.Live? && s.senders > 0
    case SwapDrain => x.Dropped?
    case WakeDrain => x.Draining?
  }

  /** The handle's next place in its call. */
  function HandleNext(s: Shared, x: Handle, op: HandleOp): Handle
    requires HandleReady(s, x, op)
  {
    match op
    case Clone => Live
    case BeginCall => if s.draining then Live else Calling
    case Reserve => Live
    case DropHandle => Dropped(s.senders == 1)
    case SwapDrain => if x.last then Draining(!s.draining) else Gone
    case WakeDrain => Gone
  }

  function ApplyHandle(s: Shared, h: nat, op: HandleOp): Shared
    requires h < |s.handles| && HandleReady(s, s.handles[h], op)
  {
    var x := s.handles[h];
    var t := s.(handles := s.handles[h := HandleNext(s, x, op)]);
    match op
    case Clone => t.(senders := s.senders + 1, handles := t.handles + [Live])
    case BeginCall => t
    case Reserve => t.(reserved := s.reserved + 1, requests := s.requests + [Reserved])
    case DropHandle => t.(senders := s.senders - 1)
    case SwapDrain => t.(draining := s.draining || x.last)
    case WakeDrain => WakeIf(t, x.wake)
  }

  predicate RequestReady(s: Shared, p: Phase, op: RequestOp) {
    match op
    case Assign => p.Reserved? && s.available > 0 && !s.closed
    case Unassign => p.Assigned?
    case CountActive => p.Assigned?
    case FreeReservation => p.Counting? && s.reserved > 0
    case ReleasePermit => p == Admitted(true)
    case DropRequest => (p.Reserved? && s.reserved > 0) || (p == Admitted(false) && s.active > 0)
    case CheckDrain => p.Leaving?
    case WakeDone => p.Waking?
  }

  function RequestNext(s: Shared, op: RequestOp): Phase {
    match op
    case Assign => Assigned
    case Unassign => Reserved
    case CountActive => Counting
    case FreeReservation => Admitted(true)
    case ReleasePermit => Admitted(false)
    case DropRequest => Leaving
    case CheckDrain => if s.draining then Waking else Done
    case WakeDone => Done
  }

  function ApplyRequest(s: Shared, r: nat, op: RequestOp): Shared
    requires r < |s.requests| && RequestReady(s, s.requests[r], op)
  {
    var p := s.requests[r];
    var t := s.(requests := s.requests[r := RequestNext(s, op)]);
    match op
    case Assign => t.(available := s.available - 1)
    case Unassign => t.(available := s.available + 1)
    case CountActive => t.(active := s.active + 1)
    case FreeReservation => t.(reserved := s.reserved - 1)
    case ReleasePermit => t.(available := s.available + 1)
    case DropRequest => if p.Reserved? then t.(reserved := s.reserved - 1) else t.(active := s.active - 1)
    case CheckDrain => t
    case WakeDone => Wake(t)
  }

  function ApplyCaller(s: Shared, c: nat): Shared
    requires c < |s.shutdowns| && !s.shutdowns[c].Returned?
  {
    match s.shutdowns[c]
    case Entered => s.(shutdowns := s.shutdowns[c := Read(!s.closed)])
    case Read(open) => s.(closed := s.closed || open, shutdowns := s.shutdowns[c := Shut(open)])
    case Shut(open) => s.(draining := true, shutdowns := s.shutdowns[c := Swapped(open, !s.draining)])
    case Swapped(open, wake) => WakeIf(s, wake).(shutdowns := s.shutdowns[c := Last(open)])
    case Last(open) => WakeIf(s, open).(shutdowns := s.shutdowns[c := Returned])
  }

  predicate TaskReady(s: Shared, op: TaskOp) {
    match op
    case BeginPoll => s.task.Parked?
    case Register => s.task.Polling?
    case ReadDraining => s.task.Registered?
    case ReadReserved => s.task.SawDraining?
    case ReadClosed => s.task.SawReserved?
    case ReadActive => s.task.SawIdle?
  }

  function ApplyTask(s: Shared, op: TaskOp): Shared
    requires TaskReady(s, op)
  {
    match op
    case BeginPoll => s.(task := Polling, notified := false)
    case Register => s.(task := Registered, registered := true)
    case ReadDraining => s.(task := if s.draining then SawDraining else Parked)
    case ReadReserved => s.(task := SawReserved(s.reserved))
    case ReadClosed =>
      s.(task := if s.closed || s.task.reserved == 0 then SawIdle(s.closed) else Parked)
    case ReadActive => s.(task := if s.active == 0 then Closing(s.task.closed) else Parked)
  }

  predicate Enabled(s: Shared, e: Event) {
    match e
    case OnHandle(h, op) => h < |s.handles| && HandleReady(s, s.handles[h], op)
    case OnRequest(r, op) => r < |s.requests| && RequestReady(s, s.requests[r], op)
    case EnterShutdown => true
    case StepShutdown(c) => c < |s.shutdowns| && !s.shutdowns[c].Returned?
    case OnTask(op) => TaskReady(s, op)
  }

  function Apply(s: Shared, e: Event): Shared
    requires Enabled(s, e)
  {
    match e
    case OnHandle(h, op) => ApplyHandle(s, h, op)
    case OnRequest(r, op) => ApplyRequest(s, r, op)
    case EnterShutdown => s.(shutdowns := s.shutdowns + [Entered])
    case StepShutdown(c) => ApplyCaller(s, c)
    case OnTask(op) => ApplyTask(s, op)
  }

  /** `s` is reached from `s0` by the events `es`. */
  predicate Reaches(s0: Shared, es: seq<Event>, s: Shared)
    decreases |es|
  {
    if es == [] then s == s0
    else Enabled(s0, es[0]) && Reaches(Apply(s0, es[0]), es[1..], s)
  }

  // ----- invariants -----

  /** The counters are what the handles and requests they count say. */
  ghost predicate Counts(limit: nat, s: Shared) {
    && s.senders == Count(s.handles, Counted)
    && s.reserved == Count(s.requests, Pre)
    && s.active == Count(s.requests, IsActive)
    && s.available + Count(s.requests, Holds) == limit
  }

  predicate NoPre(s: Shared) {
    forall r | 0 <= r < |s.requests| :: !Pre(s.requests[r])
  }

  /** A drain with admission still open can only come from the last handle. */
  predicate Order(s: Shared) {
    && (s.draining && !s.closed ==> s.senders == 0)
    && (forall h | 0 <= h < |s.handles| :: s.handles[h] == Dropped(true) ==> s.senders == 0)
    && (forall c | 0 <= c < |s.shutdowns| ::
          s.shutdowns[c] == Read(false) || s.shutdowns[c].Shut? ==> s.closed)
  }

  /** What the task may conclude from the reads it made so far. */
  predicate Seen(s: Shared) {
    match s.task
    case SawDraining => s.draining
    case SawReserved(r) => s.draining && (!s.closed && r == 0 ==> NoPre(s))
    case SawIdle(c) => if c then s.closed else s.senders == 0 && NoPre(s)
    case Closing(c) => if c then s.closed else s.senders == 0 && NoPre(s) && s.active == 0
    case _ => true
  }

  ghost predicate Inv(limit: nat, s: Shared) {
    Counts(limit, s) && Order(s) && Seen(s)
  }

  lemma RequestUpdated(s: Shared, r: nat, p: Phase)
    requires r < |s.requests|
    ensures var was := s.requests[r]; var now := s.requests[r := p];
            && Count(now, Pre) + (if Pre(was) then 1 else 0) == Count(s.requests, Pre) + (if Pre(p) then 1 else 0)
            && Count(now, IsActive) + (if IsActive(was) then 1 else 0) ==
               Count(s.requests, IsActive) + (if IsActive(p) then 1 else 0)
            && Count(now, Holds) + (if Holds(was) then 1 else 0) ==
               Count(s.requests, Holds) + (if Holds(p) then 1 else 0)
  {
    CountUpdate(s.requests, r, p, Pre);
    CountUpdate(s.requests, r, p, IsActive);
    CountUpdate(s.requests, r, p, Holds);
  }

  lemma RequestsAppended(s: Shared)
    ensures Count(s.requests + [Reserved], Pre) == Count(s.requests, Pre) + 1
    ensures Count(s.requests + [Reserved], IsActive) == Count(s.requests, IsActive)
    ensures Count(s.requests + [Reserved], Holds) == Count(s.requests, Holds)
  {
    CountAppend(s.requests, Reserved, Pre);
    CountAppend(s.requests, Reserved, IsActive);
    CountAppend(s.requests, Reserved, Holds);
  }

  /** With no counted handle left, nobody can clone one or create a request. */
  lemma NoSenders(limit: nat, s: Shared)
    requires Counts(limit, s) && s.senders == 0
    ensures forall h | 0 <= h < |s.handles| :: !Counted(s.handles[h])
  {
    CountZero(s.handles, Counted);
  }

  lemma HandleStep(limit: nat, s: Shared, h: nat, op: HandleOp)
    requires Inv(limit, s) && h < |s.handles| && HandleReady(s, s.handles[h], op)
    ensures Inv(limit, ApplyHandle(s, h, op))
  {
    hide Count;
    HandleCounts(limit, s, h, op);
    if s.senders == 0 {
      NoSenders(limit, s);
    }
    hide Counts;
    var t := ApplyHandle(s, h, op);
    assert forall i | 0 <= i < |s.handles| && i != h :: t.handles[i] == s.handles[i];
  }

  lemma HandleCounts(limit: nat, s: Shared, h: nat, op: HandleOp)
    requires Counts(limit, s) && h < |s.handles| && HandleReady(s, s.handles[h], op)
    ensures Counts(limit, ApplyHandle(s, h, op))
  {
    hide Count;
    var x := HandleNext(s, s.handles[h], op);
    CountUpdate(s.handles, h, x, Counted);
    CountAppend(s.handles[h := x], Live, Counted);
    RequestsAppended(s);
  }

  lemma RequestStep(limit: nat, s: Shared, r: nat, op: RequestOp)
    requires Inv(limit, s) && r < |s.requests| && RequestReady(s, s.requests[r], op)
    ensures Inv(limit, ApplyRequest(s, r, op))
  {
    RequestCounts(limit, s, r, op);
    RequestSeen(s, r, op);
    hide Count, Counts, Seen;
  }

  lemma RequestSeen(s: Shared, r: nat, op: RequestOp)
    requires Seen(s) && r < |s.requests| && RequestReady(s, s.requests[r], op)
    ensures Seen(ApplyRequest(s, r, op))
  {
    var t := ApplyRequest(s, r, op);
    assert NoPre(s) ==> NoPre(t) && !Pre(s.requests[r]);
  }

  lemma RequestCounts(limit: nat, s: Shared, r: nat, op: RequestOp)
    requires Counts(limit, s) && r < |s.requests| && RequestReady(s, s.requests[r], op)
    ensures Counts(limit, ApplyRequest(s, r, op))
  {
    hide Count;
    RequestUpdated(s, r, RequestNext(s, op));
  }

  lemma CallerStep(limit: nat, s: Shared, c: nat)
    requires Inv(limit, s) && c < |s.shutdowns| && !s.shutdowns[c].Returned?
    ensures Inv(limit, ApplyCaller(s, c))
  {
    hide Count;
  }

  lemma TaskStep(limit: nat, s: Shared, op: TaskOp)
    requires Inv(limit, s) && TaskReady(s, op)
    ensures Inv(limit, ApplyTask(s, op))
  {
    CountZero(s.requests, Pre);
  }

  lemma InvStep(limit: nat, s: Shared, e: Event)
    requires Inv(limit, s) && Enabled(s, e)
    ensures Inv(limit, Apply(s, e))
  {
    hide ApplyHandle, ApplyRequest, ApplyCaller, ApplyTask, HandleReady, RequestReady;
    match e
    case OnHandle(h, op) => HandleStep(limit, s, h, op);
    case OnRequest(r, op) => RequestStep(limit, s, r, op);
    case StepShutdown(c) => CallerStep(limit, s, c);
    case OnTask(op) => TaskStep(limit, s, op);
    case EnterShutdown =>
  }

  lemma {:induction false} Reachable(limit: nat, s0: Shared, es: seq<Event>, s: Shared)
    requires Inv(limit, s0) && Reaches(s0, es, s)
    ensures Inv(limit, s)
    decreases |es|
  {
    if es != [] {
      InvStep(limit, s0, es[0]);
      Reachable(limit, Apply(s0, es[0]), es[1..], s);
    }
  }

  /**
   Drain safety: in every run, a task that closes the connection while admission is open does
   so only after every request ever created has finished, and none can be created any more.
   */
  lemma DrainSafety(limit: nat, es: seq<Event>, s: Shared)
    requires Reaches(Init(limit), es, s) && s.task == Closing(false)
    ensures forall r | 0 <= r < |s.requests| :: Finished(s.requests[r])
    ensures forall h | 0 <= h < |s.handles| :: !Counted(s.handles[h])
  {
    Reachable(limit, Init(limit), es, s);
    CountZero(s.requests, IsActive);
    NoSenders(limit, s);
    forall r | 0 <= r < |s.requests|
      ensures Finished(s.requests[r])
    {
      assert !Pre(s.requests[r]) && !IsActive(s.requests[r]);
    }
  }

  predicate NoneActive(s: Shared) {
    forall r | 0 <= r < |s.requests| :: !IsActive(s.requests[r])
  }

  /** The close check passes only with nothing counted as active. */
  lemma IdleAtCheck(limit: nat, es: seq<Event>, s: Shared)
    requires Reaches(Init(limit), es, s) && s.task.SawIdle? && Apply(s, OnTask(ReadActive)).task.Closing?
    ensures NoneActive(s)
  {
    Reachable(limit, Init(limit), es, s);
    CountZero(s.requests, IsActive);
  }

  /** The semaphore chose a request that has not run since. */
  predicate AnyAssigned(s: Shared) {
    exists r | 0 <= r < |s.requests| :: s.requests[r].Assigned?
  }

  predicate ActiveIn(s: Shared, r: nat) {
    r < |s.requests| && IsActive(s.requests[r])
  }

  /** A request that was not active in `s`, or did not exist, is active in `t`. */
  predicate Starts(s: Shared, t: Shared) {
    exists r | 0 <= r < |t.requests| :: ActiveIn(t, r) && !ActiveIn(s, r)
  }

  ghost predicate MayStart(s: Shared) {
    exists es, t :: Reaches(s, es, t) && Starts(s, t)
  }

  /** With admission closed and nobody chosen, nothing has started since `s`. */
  predicate Quiet(s: Shared, t: Shared) {
    t.closed && !AnyAssigned(t) && !Starts(s, t)
  }

  lemma QuietStep(s: Shared, t: Shared, e: Event)
    requires Quiet(s, t) && Enabled(t, e)
    ensures Quiet(s, Apply(t, e))
  {
    var u := Apply(t, e);
    forall r | 0 <= r < |u.requests|
      ensures !u.requests[r].Assigned? && (ActiveIn(u, r) ==> ActiveIn(t, r))
    {
      assert r < |t.requests| ==> !t.requests[r].Assigned?;
    }
    assert forall r | 0 <= r < |u.requests| && ActiveIn(u, r) :: ActiveIn(t, r) && ActiveIn(s, r);
  }

  lemma {:induction false} StaysQuiet(s: Shared, t: Shared, es: seq<Event>, u: Shared)
    requires Quiet(s, t) && Reaches(t, es, u)
    ensures Quiet(s, u)
    decreases |es|
  {
    hide Quiet, Apply, Enabled;
    if es != [] {
      QuietStep(s, t, es[0]);
      StaysQuiet(s, Apply(t, es[0]), es[1..], u);
    }
  }

  lemma ChosenMayStart(s: Shared, r: nat)
    requires r < |s.requests| && s.requests[r].Assigned?
    ensures MayStart(s)
  {
    var es := [OnRequest(r, CountActive)];
    var t := Apply(s, es[0]);
    assert es[1..] == [] && Reaches(t, es[1..], t) && Reaches(s, es, t);
    assert ActiveIn(t, r) && !ActiveIn(s, r);
  }

  /**
   The race after an explicit shutdown, exactly: once admission is closed, some continuation
   starts a request that was not active if and only if the semaphore had already chosen one.
   */
  lemma StartsAfterShutdownIff(s: Shared)
    requires s.closed
    ensures MayStart(s) <==> AnyAssigned(s)
  {
    if AnyAssigned(s) {
      var r :| 0 <= r < |s.requests| && s.requests[r].Assigned?;
      ChosenMayStart(s, r);
    } else {
      assert Quiet(s, s);
      hide Quiet;
      forall es, t | Reaches(s, es, t)
        ensures !Starts(s, t)
      {
        StaysQuiet(s, s, es, t);
        assert Quiet(s, t) ==> !Starts(s, t) by { QuietMeans(s, t); }
      }
    }
  }

  lemma QuietMeans(s: Shared, t: Shared)
    ensures Quiet(s, t) ==> !Starts(s, t)
  {
  }

  lemma StartsFromNone(s: Shared, t: Shared)
    requires NoneActive(s)
    ensures Starts(s, t) <==> !NoneActive(t)
  {
    assert forall r | 0 <= r < |t.requests| :: ActiveIn(t, r) <==> IsActive(t.requests[r]);
    assert forall r: nat :: !ActiveIn(s, r);
  }

  /**
   An explicit shutdown closes with nothing active; and from then on nothing is ever active
   again if and only if the semaphore had chosen nobody.
   */
  lemma ShutdownSafety(limit: nat, es: seq<Event>, s: Shared)
    requires Reaches(Init(limit), es, s) && s.task == SawIdle(true)
    requires Apply(s, OnTask(ReadActive)).task.Closing?
    ensures var c := Apply(s, OnTask(ReadActive));
            && NoneActive(c)
            && ((forall more, t | Reaches(c, more, t) :: NoneActive(t)) <==> !AnyAssigned(c))
  {
    IdleAtCheck(limit, es, s);
    Reachable(limit, Init(limit), es, s);
    var c := Apply(s, OnTask(ReadActive));
    assert c.closed && NoneActive(c);
    StartsAfterShutdownIff(c);
    hide AnyAssigned, Starts, NoneActive, Apply, Enabled;
    if MayStart(c) {
      var more, t :| Reaches(c, more, t) && Starts(c, t);
      StartsFromNone(c, t);
      assert Reaches(c, more, t) && !NoneActive(t);
    } else {
      forall more, t | Reaches(c, more, t)
        ensures NoneActive(t)
      {
        StartsFromNone(c, t);
      }
    }
  }

  /** No reservation at the check rules the race out. */
  lemma NoReservationNoRace(limit: nat, es: seq<Event>, s: Shared)
    requires Reaches(Init(limit), es, s) && s.closed && s.reserved == 0
    ensures !MayStart(s)
  {
    Reachable(limit, Init(limit), es, s);
    CountZero(s.requests, Pre);
    assert forall r | 0 <= r < |s.requests| :: !Pre(s.requests[r]);
    StartsAfterShutdownIff(s);
  }

  /** No counter is decremented at zero: whoever is about to give up a count still holds one. */
  lemma CountersNeverUnderflow(limit: nat, es: seq<Event>, s: Shared)
    requires Reaches(Init(limit), es, s)
    ensures forall h | 0 <= h < |s.handles| :: Counted(s.handles[h]) ==> s.senders > 0
    ensures forall r | 0 <= r < |s.requests| :: Pre(s.requests[r]) ==> s.reserved > 0
    ensures forall r | 0 <= r < |s.requests| :: IsActive(s.requests[r]) ==> s.active > 0
  {
    Reachable(limit, Init(limit), es, s);
    CountZero(s.handles, Counted);
    CountZero(s.requests, Pre);
    CountZero(s.requests, IsActive);
  }

  /** Permits are never minted or lost, in any state of any run. */
  lemma PermitsConserved(limit: nat, es: seq<Event>, s: Shared)
    requires Reaches(Init(limit), es, s)
    ensures s.available + Count(s.requests, Holds) == limit
  {
    Reachable(limit, Init(limit), es, s);
  }

  /** One request was chosen by the semaphore just before a shutdown closed admission. */
  function ChosenThenShut(): Shared {
    Shared(1, 1, 0, 0, true, true, [Live], [Assigned], [Swapped(true, true)], Polling, false, false)
  }

  lemma ReachChosenThenShut() returns (es: seq<Event>)
    ensures Reaches(Init(1), es, ChosenThenShut())
  {
    hide Reaches;
    var s0 := Init(1);
    es := Start(s0);
    var s;
    es, s := Extend(s0, es, s0, OnHandle(0, BeginCall));
    es, s := Extend(s0, es, s, OnHandle(0, Reserve));
    es, s := Extend(s0, es, s, OnRequest(0, Assign));
    es, s := Extend(s0, es, s, EnterShutdown);
    es, s := Extend(s0, es, s, StepShutdown(0));
    es, s := Extend(s0, es, s, StepShutdown(0));
    es, s := Extend(s0, es, s, StepShutdown(0));
    assert s.handles == [Live] && s.requests == [Assigned] && s.shutdowns == [Swapped(true, true)];
  }

  /** The shutdown clause cannot be strengthened: a chosen request may run after the close. */
  lemma ShutdownMayRace() returns (es: seq<Event>, s: Shared)
    ensures Reaches(Init(1), es, s) && s.task == Closing(true)
    ensures |s.requests| == 1 && s.requests[0] == Admitted(true)
  {
    hide Reaches;
    var s0 := Init(1);
    es := ReachChosenThenShut();
    es, s := Extend(s0, es, ChosenThenShut(), OnTask(Register));
    es, s := Extend(s0, es, s, OnTask(ReadDraining));
    es, s := Extend(s0, es, s, OnTask(ReadReserved));
    es, s := Extend(s0, es, s, OnTask(ReadClosed));
    es, s := Extend(s0, es, s, OnTask(ReadActive));
    es, s := Extend(s0, es, s, OnRequest(0, CountActive));
    es, s := Extend(s0, es, s, OnRequest(0, FreeReservation));
  }

  lemma Start(s0: Shared) returns (es: seq<Event>)
    ensures es == [] && Reaches(s0, es, s0)
  {
    es := [];
  }

  lemma {:induction false} Extend(s0: Shared, es: seq<Event>, s: Shared, e: Event)
    returns (all: seq<Event>, s': Shared)
    requires Reaches(s0, es, s) && Enabled(s, e)
    ensures all == es + [e] && s' == Apply(s, e) && Reaches(s0, all, s')
    decreases |es|
  {
    all, s' := es + [e], Apply(s, e);
    if es == [] {
      assert all[1..] == [];
    } else {
      var a, t := Extend(Apply(s0, es[0]), es[1..], s, e);
      assert all[1..] == a;
    }
  }

  // ----- no lost close -----

  /** What the close check asks for, read all at once. */
  predicate Idle(s: Shared) {
    s.draining && (s.closed || s.reserved == 0) && s.active == 0
  }

  predicate CallerWillWake(c: Shutdown) {
    c == Read(true) || c == Shut(true) || (c.Swapped? && (c.open || c.wake)) || c == Last(true)
  }

  /** Somebody already past a counter change has yet to wake the driver. */
  predicate InFlight(s: Shared) {
    || (exists r | 0 <= r < |s.requests| :: s.requests[r].Leaving? || s.requests[r].Waking?)
    || (exists h | 0 <= h < |s.handles| :: s.handles[h] == Draining(true))
    || (exists c | 0 <= c < |s.shutdowns| :: CallerWillWake(s.shutdowns[c]))
  }

  /** No wakeup is owed: none was needed, or one is delivered or on its way. */
  predicate Covered(s: Shared) {
    s.notified || InFlight(s) || !Idle(s)
  }

  /** The task may sleep on what it read only while it stays covered. */
  predicate Awake(s: Shared) {
    && (!s.task.Polling? ==> s.registered || s.notified)
    && (s.task.Parked? ==> Covered(s))
    && (s.task.SawReserved? && s.task.reserved > 0 && !s.closed ==> Covered(s))
  }

  lemma AwakeHandle(s: Shared, h: nat, op: HandleOp)
    requires Awake(s) && h < |s.handles| && HandleReady(s, s.handles[h], op)
    ensures Awake(ApplyHandle(s, h, op))
  {
    var t := ApplyHandle(s, h, op);
    assert op.SwapDrain? ==> t.handles[h] == HandleNext(s, s.handles[h], op);
    assert forall i | 0 <= i < |s.handles| && i != h :: t.handles[i] == s.handles[i];
    assert forall i | 0 <= i < |s.requests| :: t.requests[i] == s.requests[i];
  }

  lemma AwakeRequest(limit: nat, s: Shared, r: nat, op: RequestOp)
    requires Counts(limit, s) && Awake(s) && r < |s.requests| && RequestReady(s, s.requests[r], op)
    ensures Awake(ApplyRequest(s, r, op))
  {
    CountZero(s.requests, IsActive);
    assert IsActive(s.requests[r]) ==> s.active > 0;
    hide Count, Counts;
    var t := ApplyRequest(s, r, op);
    assert t.requests[r] == RequestNext(s, op);
    assert forall i | 0 <= i < |s.requests| && i != r :: t.requests[i] == s.requests[i];
  }

  lemma AwakeCaller(s: Shared, c: nat)
    requires Awake(s) && c < |s.shutdowns| && !s.shutdowns[c].Returned?
    ensures Awake(ApplyCaller(s, c))
  {
    var t := ApplyCaller(s, c);
    assert CallerWillWake(t.shutdowns[c]) || !CallerWillWake(t.shutdowns[c]);
    assert forall i | 0 <= i < |s.shutdowns| && i != c :: t.shutdowns[i] == s.shutdowns[i];
  }

  lemma AwakeTask(s: Shared, op: TaskOp)
    requires Awake(s) && TaskReady(s, op)
    ensures Awake(ApplyTask(s, op))
  {
  }

  lemma AwakeEnter(s: Shared)
    requires Awake(s)
    ensures Awake(Apply(s, EnterShutdown))
  {
    var t := Apply(s, EnterShutdown);
    assert forall i | 0 <= i < |s.shutdowns| :: t.shutdowns[i] == s.shutdowns[i];
  }

  lemma {:induction false} AlwaysAwake(limit: nat, s0: Shared, es: seq<Event>, s: Shared)
    requires Inv(limit, s0) && Awake(s0) && Reaches(s0, es, s)
    ensures Awake(s)
    decreases |es|
  {
    hide Awake, ApplyHandle, ApplyRequest, ApplyCaller, ApplyTask, HandleReady, RequestReady;
    if es != [] {
      InvStep(limit, s0, es[0]);
      match es[0] {
        case OnHandle(h, op) => AwakeHandle(s0, h, op);
        case OnRequest(r, op) => AwakeRequest(limit, s0, r, op);
        case StepShutdown(c) => AwakeCaller(s0, c);
        case OnTask(op) => AwakeTask(s0, op);
        case EnterShutdown => AwakeEnter(s0);
      }
      AlwaysAwake(limit, Apply(s0, es[0]), es[1..], s);
    }
  }

  /**
   No lost close: in every run, a task asleep on a drained, idle connection with no wakeup
   left in flight has been notified, so it is polled again, and that poll closes.
   */
  lemma NoLostClose(limit: nat, es: seq<Event>, s: Shared)
    requires Reaches(Init(limit), es, s) && s.task.Parked? && Idle(s) && !InFlight(s)
    ensures s.notified
    ensures var p := ApplyTask(ApplyTask(ApplyTask(s, BeginPoll), Register), ReadDraining);
            p.task.SawDraining? &&
            ApplyTask(ApplyTask(p, ReadReserved), ReadClosed).task.SawIdle? &&
            ApplyTask(ApplyTask(ApplyTask(p, ReadReserved), ReadClosed), ReadActive).task.Closing?
  {
    AlwaysAwake(limit, Init(limit), es, s);
  }
}
