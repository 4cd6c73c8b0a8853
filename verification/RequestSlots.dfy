/**
  * The bounded request slots of the local demo server, under every interleaving of the accepting
  * thread with the threads it starts, and the bounded drain of a rejected connection.
  *
  * The accepting thread takes one connection at a time; a started thread may finish at any moment,
  * also before the accepting thread has returned from starting it.
  */
module RequestSlots {
  const DRAIN_MAX_BYTES: nat := 65536
  const CHUNK: nat := 8192

  /** Where the accepting thread stands inside `process_request`. */
  datatype Acceptor =
    | Idle
    | Starting(id: nat)
    | Launched(id: nat)
    | Releasing(id: nat)
    | Rejecting(id: nat)

  /** One atomic step of some thread. */
  datatype Event =
    | Arrive(id: nat)
    | Launch
    | StartFails
    | StartReturns
    | StartRaisesLate(id: nat)
    | ReleaseFailed
    | Finish(id: nat)
    | Reject

  datatype State = State(
    free: nat,
    acceptor: Acceptor,
    running: set<nat>,
    admitted: set<nat>,
    released: seq<nat>,
    rejected: set<nat>,
    refused: seq<nat>)

  function Initial(maximum: nat): State {
    State(maximum, Idle, {}, {}, [], {}, [])
  }

  predicate Enabled(s: State, e: Event) {
    match e
    case Arrive(id) => s.acceptor.Idle? && id !in s.admitted && id !in s.rejected
    case Launch => s.acceptor.Starting?
    case StartFails => s.acceptor.Starting?
    case StartReturns => s.acceptor.Launched?
    case StartRaisesLate(id) => s.acceptor == Launched(id)
    case ReleaseFailed => s.acceptor.Releasing?
    case Finish(id) => id in s.running
    case Reject => s.acceptor.Rejecting?
  }

  /** A bounded semaphore's release: one more free slot, or an error when all are free already. */
  function Release(maximum: nat, s: State, id: nat): State {
    if s.free < maximum then s.(free := s.free + 1, released := s.released + [id])
    else s.(refused := s.refused + [id])
  }

  function Step(maximum: nat, s: State, e: Event): State
    requires Enabled(s, e)
  {
    match e
    case Arrive(id) =>
      if s.free > 0 then s.(free := s.free - 1, acceptor := Starting(id), admitted := s.admitted + {id})
      else s.(acceptor := Rejecting(id), rejected := s.rejected + {id})
    case Launch => s.(acceptor := Launched(s.acceptor.id), running := s.running + {s.acceptor.id})
    case StartFails => s.(acceptor := Releasing(s.acceptor.id))
    case StartReturns => s.(acceptor := Idle)
    case StartRaisesLate(id) => s.(acceptor := Releasing(id))
    case ReleaseFailed => Release(maximum, s, s.acceptor.id).(acceptor := Idle)
    case Finish(id) => Release(maximum, s, id).(running := s.running - {id})
    case Reject => s.(acceptor := Idle)
  }

  /** Every event of the schedule could happen when it did. */
  ghost predicate Schedule(maximum: nat, s: State, events: seq<Event>)
    decreases |events|
  {
    events != [] ==>
      && Enabled(s, events[0])
      && Schedule(maximum, Step(maximum, s, events[0]), events[1..])
  }

  ghost function Run(maximum: nat, s: State, events: seq<Event>): State
    requires Schedule(maximum, s, events)
    decreases |events|
  {
    if events == [] then s else Run(maximum, Step(maximum, s, events[0]), events[1..])
  }

  ghost function LateRaises(events: seq<Event>): nat {
    if events == [] then 0
    else (if events[0].StartRaisesLate? then 1 else 0) + LateRaises(events[1..])
  }

  /** Requests that hold a slot in the accepting thread's own hands. */
  function Held(a: Acceptor): set<nat> {
    if a.Starting? || a.Releasing? then {a.id} else {}
  }

  ghost function InFlight(s: State): set<nat> { Held(s.acceptor) + s.running }

  ghost predicate Once(ids: seq<nat>) {
    forall i, j :: 0 <= i < j < |ids| ==> ids[i] != ids[j]
  }

  ghost function Members(ids: seq<nat>): set<nat> { set id | id in ids }

  /** Slots and requests agree: every admitted request is in flight or was released once. */
  ghost predicate Accounted(maximum: nat, s: State) {
    && s.free + |InFlight(s)| == maximum
    && s.refused == []
    && Held(s.acceptor) !! s.running
    && s.admitted == InFlight(s) + Members(s.released)
    && InFlight(s) !! Members(s.released)
    && Once(s.released)
    && s.admitted !! s.rejected
    && (s.acceptor.Launched? ==> s.acceptor.id in s.admitted)
    && (s.acceptor.Rejecting? ==> s.acceptor.id in s.rejected)
  }

  /** The accepting thread's steps other than giving a slot back. */
  lemma AcceptorAccounted(maximum: nat, s: State, e: Event)
    requires Accounted(maximum, s) && Enabled(s, e)
    requires e.Launch? || e.StartFails? || e.StartReturns? || e.Reject?
    ensures Accounted(maximum, Step(maximum, s, e))
  {
    assert InFlight(Step(maximum, s, e)) == InFlight(s);
  }

  lemma ArrivalAccounted(maximum: nat, s: State, id: nat)
    requires Accounted(maximum, s) && Enabled(s, Arrive(id))
    ensures Accounted(maximum, Step(maximum, s, Arrive(id)))
  {
    var t := Step(maximum, s, Arrive(id));
    if s.free > 0 {
      assert InFlight(t) == InFlight(s) + {id};
    } else {
      assert InFlight(t) == InFlight(s);
    }
  }

  lemma ReleaseAccounted(maximum: nat, s: State, id: nat, t: State)
    requires Accounted(maximum, s) && id in InFlight(s)
    requires t == Release(maximum, s, id).(acceptor := t.acceptor, running := t.running)
    requires InFlight(t) == InFlight(s) - {id} && Held(t.acceptor) !! t.running
    requires t.acceptor == s.acceptor || t.acceptor.Idle?
    ensures Accounted(maximum, t)
  {
    Giving(maximum, s, id);
  }

  lemma StepAccounted(maximum: nat, s: State, e: Event)
    requires Accounted(maximum, s) && Enabled(s, e) && !e.StartRaisesLate?
    ensures Accounted(maximum, Step(maximum, s, e))
  {
    hide Accounted;
    var t := Step(maximum, s, e);
    if e.Arrive? {
      ArrivalAccounted(maximum, s, e.id);
    } else if e.ReleaseFailed? {
      AcceptorApart(maximum, s);
      assert InFlight(t) == InFlight(s) - {s.acceptor.id};
      ReleaseAccounted(maximum, s, s.acceptor.id, t);
    } else if e.Finish? {
      AcceptorApart(maximum, s);
      assert InFlight(t) == InFlight(s) - {e.id};
      ReleaseAccounted(maximum, s, e.id, t);
    } else {
      AcceptorAccounted(maximum, s, e);
    }
  }

  lemma AcceptorApart(maximum: nat, s: State)
    requires Accounted(maximum, s)
    ensures Held(s.acceptor) !! s.running
  {
  }

  /** Giving back the slot of a request in flight never overflows and names it for the first time. */
  lemma Giving(maximum: nat, s: State, id: nat)
    requires Accounted(maximum, s) && id in InFlight(s)
    ensures s.free < maximum
    ensures Once(s.released + [id]) && Members(s.released + [id]) == Members(s.released) + {id}
    ensures |InFlight(s) - {id}| == |InFlight(s)| - 1
  {
    Without(InFlight(s), id);
    assert id !in s.released;
    hide InFlight;
    var more := s.released + [id];
    assert more[|s.released|] == id;
    assert forall k :: 0 <= k < |s.released| ==> more[k] == s.released[k];
  }

  lemma Without(ids: set<nat>, id: nat)
    requires id in ids
    ensures |ids - {id}| == |ids| - 1
  {
    assert ids == (ids - {id}) + {id};
  }

  /**
    * In every interleaving of arrivals, starts, failed starts and completions, free slots plus
    * requests in flight make the maximum, and no admitted request is released twice or lost.
    */
  lemma {:induction false} EveryRunAccounted(maximum: nat, s: State, events: seq<Event>)
    requires Accounted(maximum, s) && Schedule(maximum, s, events) && LateRaises(events) == 0
    ensures Accounted(maximum, Run(maximum, s, events))
    decreases |events|
  {
    if events != [] {
      StepAccounted(maximum, s, events[0]);
      EveryRunAccounted(maximum, Step(maximum, s, events[0]), events[1..]);
    }
  }

  lemma InitialAccounted(maximum: nat)
    ensures Accounted(maximum, Initial(maximum))
  {
    assert InFlight(Initial(maximum)) == {};
  }

  /** A request that arrived was admitted or rejected, never both, and a rejected one holds nothing. */
  lemma RejectedTakesNoSlot(maximum: nat, s: State, id: nat)
    requires Accounted(maximum, s) && Enabled(s, Arrive(id))
    ensures var t := Step(maximum, s, Arrive(id));
      && (id in t.rejected <==> |InFlight(s)| == maximum)
      && (id in t.admitted <==> id in InFlight(t))
      && (id in t.rejected ==>
        && t.free == s.free && InFlight(t) == InFlight(s)
        && Step(maximum, t, Reject) == s.(rejected := s.rejected + {id}))
  {
  }

  /** Once nothing is in flight, every slot is back and every admitted request was released once. */
  lemma QuietMeansAllReturned(maximum: nat, events: seq<Event>)
    requires Schedule(maximum, Initial(maximum), events) && LateRaises(events) == 0
    ensures var t := Run(maximum, Initial(maximum), events);
      InFlight(t) == {} <==> t.free == maximum
    ensures var t := Run(maximum, Initial(maximum), events);
      t.free == maximum ==> Members(t.released) == t.admitted && |t.released| == |t.admitted|
  {
    InitialAccounted(maximum);
    EveryRunAccounted(maximum, Initial(maximum), events);
    var t := Run(maximum, Initial(maximum), events);
    OnceCounts(t.released);
    assert t.free == maximum ==> InFlight(t) == {};
  }

  lemma {:induction false} OnceCounts(ids: seq<nat>)
    requires Once(ids)
    ensures |Members(ids)| == |ids|
    decreases |ids|
  {
    if ids == [] {
      assert Members(ids) == {};
    } else {
      var rest := ids[..|ids| - 1];
      OnceCounts(rest);
      assert Members(ids) == Members(rest) + {ids[|ids| - 1]};
      assert ids[|ids| - 1] !in rest;
    }
  }

  // ---------- Starts that raise after launching ----------

  /** Releases still owed: one for each running thread, one when the accepting thread holds a slot. */
  function Owed(s: State): nat { |s.running| + |Held(s.acceptor)| }

  /** What holds also when a start raises after its thread is already running. */
  ghost predicate Balanced(maximum: nat, s: State, late: nat) {
    && s.free + Owed(s) + |s.refused| == maximum + late
    && |s.released| + |s.refused| + Owed(s) == |s.admitted| + late
    && s.free <= maximum
    && Placed(s)
  }

  ghost predicate Placed(s: State) {
    && s.running <= s.admitted
    && (s.acceptor.Starting? ==> s.acceptor.id in s.admitted && s.acceptor.id !in s.running)
    && (s.acceptor.Launched? || s.acceptor.Releasing? ==> s.acceptor.id in s.admitted)
  }

  lemma StepBalanced(maximum: nat, s: State, late: nat, e: Event)
    requires Balanced(maximum, s, late) && Enabled(s, e)
    ensures Balanced(maximum, Step(maximum, s, e), late + if e.StartRaisesLate? then 1 else 0)
  {
    if e.Finish? {
      assert s.running == (s.running - {e.id}) + {e.id};
    }
  }

  /** The account of every run: each late raise adds one release to those the admitted requests owe. */
  lemma {:induction false} EveryRunBalanced(maximum: nat, s: State, late: nat, events: seq<Event>)
    requires Balanced(maximum, s, late) && Schedule(maximum, s, events)
    ensures Balanced(maximum, Run(maximum, s, events), late + LateRaises(events))
    decreases |events|
  {
    hide Balanced;
    if events != [] {
      StepBalanced(maximum, s, late, events[0]);
      var more := late + if events[0].StartRaisesLate? then 1 else 0;
      EveryRunBalanced(maximum, Step(maximum, s, events[0]), more, events[1..]);
    }
  }

  // ---------- Releases of one request ----------

  function Count(ids: seq<nat>, id: nat): nat {
    if ids == [] then 0 else Count(ids[..|ids| - 1], id) + if ids[|ids| - 1] == id then 1 else 0
  }

  lemma CountOneMore(ids: seq<nat>, id: nat, last: nat)
    ensures Count(ids + [last], id) == Count(ids, id) + if last == id then 1 else 0
  {
    assert (ids + [last])[..|ids|] == ids;
  }

  function One(b: bool): nat { if b then 1 else 0 }

  /** How often the semaphore's release was called for a request, refused or not. */
  function Attempts(s: State, id: nat): nat { Count(s.released, id) + Count(s.refused, id) }

  function OwedBy(s: State, id: nat): nat { One(id in s.running) + One(id in Held(s.acceptor)) }

  function LateRaisesOf(events: seq<Event>, id: nat): nat {
    if events == [] then 0 else One(events[0] == StartRaisesLate(id)) + LateRaisesOf(events[1..], id)
  }

  /** Releases made and owed for one request: one once it is admitted, and one per late raise of its start. */
  ghost predicate Counted(s: State, id: nat, late: nat) {
    Placed(s) && Attempts(s, id) + OwedBy(s, id) == One(id in s.admitted) + late
  }

  lemma ReleaseAttempts(maximum: nat, s: State, who: nat, id: nat)
    ensures var t := Release(maximum, s, who);
      Attempts(t, id) == Attempts(s, id) + One(who == id) && t == s.(free := t.free, released := t.released, refused := t.refused)
  {
    CountOneMore(s.released, id, who);
    CountOneMore(s.refused, id, who);
  }

  lemma StepPlaced(maximum: nat, s: State, e: Event)
    requires Placed(s) && Enabled(s, e)
    ensures Placed(Step(maximum, s, e))
  {}

  /** How one step moves a request between admitted, owed and released. */
  lemma StepCounted(maximum: nat, s: State, id: nat, late: nat, e: Event)
    requires Counted(s, id, late) && Enabled(s, e)
    ensures Counted(Step(maximum, s, e), id, late + One(e == StartRaisesLate(id)))
  {
    StepPlaced(maximum, s, e);
    if e.ReleaseFailed? {
      ReleaseAttempts(maximum, s, s.acceptor.id, id);
    }
    if e.Finish? {
      ReleaseAttempts(maximum, s, e.id, id);
    }
    hide Count, Release;
  }

  lemma {:induction false} EveryRequestCounted(maximum: nat, s: State, id: nat, late: nat, events: seq<Event>)
    requires Counted(s, id, late) && Schedule(maximum, s, events)
    ensures Counted(Run(maximum, s, events), id, late + LateRaisesOf(events, id))
    decreases |events|
  {
    hide Counted;
    if events != [] {
      StepCounted(maximum, s, id, late, events[0]);
      EveryRequestCounted(maximum, Step(maximum, s, events[0]), id, late + One(events[0] == StartRaisesLate(id)), events[1..]);
    }
  }

  lemma {:induction false} NoLateRaiseOf(events: seq<Event>, id: nat)
    ensures LateRaisesOf(events, id) == 0 <==> StartRaisesLate(id) !in events
  {
    if events != [] {
      NoLateRaiseOf(events[1..], id);
      assert events == [events[0]] + events[1..];
    }
  }

  lemma {:induction false} NoLateRaise(events: seq<Event>)
    ensures LateRaises(events) == 0 <==> forall id :: StartRaisesLate(id) !in events
  {
    if events != [] {
      NoLateRaise(events[1..]);
      assert events == [events[0]] + events[1..];
      if events[0].StartRaisesLate? {
        assert events[0] == StartRaisesLate(events[0].id);
      }
    }
  }

  /** A start that raises late is some admitted request's. */
  lemma {:induction false} LateRaiseAdmitted(maximum: nat, s: State, events: seq<Event>, id: nat)
    requires Placed(s) && Schedule(maximum, s, events) && StartRaisesLate(id) in events
    ensures id in Run(maximum, s, events).admitted
    decreases |events|
  {
    var t := Step(maximum, s, events[0]);
    assert Placed(t);
    if events[0] == StartRaisesLate(id) {
      AdmittedStays(maximum, t, events[1..], id);
    } else {
      assert StartRaisesLate(id) in events[1..];
      LateRaiseAdmitted(maximum, t, events[1..], id);
    }
  }

  lemma {:induction false} AdmittedStays(maximum: nat, s: State, events: seq<Event>, id: nat)
    requires Schedule(maximum, s, events) && id in s.admitted
    ensures id in Run(maximum, s, events).admitted
    decreases |events|
  {
    if events != [] {
      AdmittedStays(maximum, Step(maximum, s, events[0]), events[1..], id);
    }
  }

  /**
    * Exactly when each request releases once: in a run that ends with nothing owed, the releases called for an
    * admitted request are one and the late raises of its own start, so they are one just when that start never
    * raised late; and all are one just when no start did.
    */
  lemma ReleasedOnceIff(maximum: nat, events: seq<Event>)
    requires Schedule(maximum, Initial(maximum), events) && Owed(Run(maximum, Initial(maximum), events)) == 0
    ensures var t := Run(maximum, Initial(maximum), events);
      && (forall id :: id in t.admitted ==> Attempts(t, id) == 1 + LateRaisesOf(events, id))
      && (forall id :: id in t.admitted ==> (Attempts(t, id) == 1 <==> StartRaisesLate(id) !in events))
      && ((forall id :: id in t.admitted ==> Attempts(t, id) == 1) <==> LateRaises(events) == 0)
  {
    var start := Initial(maximum);
    var t := Run(maximum, start, events);
    hide Run, Schedule, LateRaisesOf, LateRaises, Step;
    assert t.running == {} && Held(t.acceptor) == {};
    forall id ensures id in t.admitted ==> Attempts(t, id) == 1 + LateRaisesOf(events, id)
      ensures LateRaisesOf(events, id) == 0 <==> StartRaisesLate(id) !in events
      ensures StartRaisesLate(id) in events ==> id in t.admitted
    {
      EveryRequestCounted(maximum, start, id, 0, events);
      NoLateRaiseOf(events, id);
      if StartRaisesLate(id) in events {
        LateRaiseAdmitted(maximum, start, events, id);
      }
    }
    NoLateRaise(events);
  }

  // ---------- Slots beside requests in flight ----------

  ghost predicate AddsUp(maximum: nat, s: State) { s.free + |InFlight(s)| == maximum }

  /** Slots and requests in flight add up in every state of a run, a release the accepting thread is about to make
      included. */
  ghost predicate AlwaysAddsUp(maximum: nat, s: State, events: seq<Event>)
    requires Schedule(maximum, s, events)
    decreases |events|
  {
    && AddsUp(maximum, s)
    && (s.acceptor.Releasing? ==> AddsUp(maximum, Step(maximum, s, ReleaseFailed)))
    && (events != [] ==> AlwaysAddsUp(maximum, Step(maximum, s, events[0]), events[1..]))
  }

  lemma LateRaiseUnbalances(maximum: nat, s: State, id: nat)
    requires Accounted(maximum, s) && Enabled(s, StartRaisesLate(id))
    ensures var t := Step(maximum, s, StartRaisesLate(id));
      !AddsUp(maximum, t) || !AddsUp(maximum, Step(maximum, t, ReleaseFailed))
  {
    var t := Step(maximum, s, StartRaisesLate(id));
    var u := Step(maximum, t, ReleaseFailed);
    assert InFlight(s) == s.running && InFlight(u) == s.running;
    if id in s.running {
      assert InFlight(t) == s.running;
      Giving(maximum, s, id);
    } else {
      assert InFlight(t) == s.running + {id};
    }
  }

  /** Exactly the runs without a late raise keep slots and requests in flight adding up to the maximum. */
  lemma {:induction false} SlotsAddUpIff(maximum: nat, s: State, events: seq<Event>)
    requires Accounted(maximum, s) && Schedule(maximum, s, events)
    ensures AlwaysAddsUp(maximum, s, events) <==> LateRaises(events) == 0
    decreases |events|
  {
    if s.acceptor.Releasing? {
      StepAccounted(maximum, s, ReleaseFailed);
    }
    assert AddsUp(maximum, s) && (s.acceptor.Releasing? ==> AddsUp(maximum, Step(maximum, s, ReleaseFailed)));
    hide Accounted, AddsUp, Step;
    if events != [] {
      if events[0].StartRaisesLate? {
        LateRaiseUnbalances(maximum, s, events[0].id);
        ReleasingAfter(maximum, s, events[0].id);
      } else {
        StepAccounted(maximum, s, events[0]);
        SlotsAddUpIff(maximum, Step(maximum, s, events[0]), events[1..]);
      }
    }
  }

  lemma ReleasingAfter(maximum: nat, s: State, id: nat)
    requires Enabled(s, StartRaisesLate(id))
    ensures Step(maximum, s, StartRaisesLate(id)).acceptor == Releasing(id)
  {}

  /** With one slot, a single late raise lets two requests run at once. */
  lemma LateRaiseOverfills()
    ensures var events := [Arrive(0), Launch, StartRaisesLate(0), ReleaseFailed, Arrive(1), Launch];
      Schedule(1, Initial(1), events) && Run(1, Initial(1), events).running == {0, 1}
  {
    var s1 := Step(1, Initial(1), Arrive(0));
    var s2 := Step(1, s1, Launch);
    var s3 := Step(1, s2, StartRaisesLate(0));
    var s4 := Step(1, s3, ReleaseFailed);
    var s5 := Step(1, s4, Arrive(1));
    var s6 := Step(1, s5, Launch);
    Prepend(1, s6, Launch, s5, []);
    Prepend(1, s5, Arrive(1), s4, [Launch]);
    Prepend(1, s4, ReleaseFailed, s3, [Arrive(1), Launch]);
    Prepend(1, s3, StartRaisesLate(0), s2, [ReleaseFailed, Arrive(1), Launch]);
    Prepend(1, s2, Launch, s1, [StartRaisesLate(0), ReleaseFailed, Arrive(1), Launch]);
    Prepend(1, s1, Arrive(0), Initial(1), [Launch, StartRaisesLate(0), ReleaseFailed, Arrive(1), Launch]);
  }

  lemma Prepend(maximum: nat, t: State, e: Event, s: State, events: seq<Event>)
    requires Enabled(s, e) && t == Step(maximum, s, e) && Schedule(maximum, t, events)
    ensures Schedule(maximum, s, [e] + events)
    ensures Run(maximum, s, [e] + events) == Run(maximum, t, events)
  {
    assert ([e] + events)[1..] == events;
  }

  /** The server's shared fields; each method is one atomic piece of the threads' code. */
  class DemoServer {
    const maximum: nat
    var slots: nat
    var acceptor: Acceptor
    var running: set<nat>
    ghost var admitted: set<nat>
    ghost var released: seq<nat>
    ghost var rejected: set<nat>
    ghost var refused: seq<nat>

    constructor (maximum: nat)
      ensures this.maximum == maximum && Now() == Initial(maximum)
    {
      this.maximum, slots, acceptor, running := maximum, maximum, Idle, {};
      admitted, released, rejected, refused := {}, [], {}, [];
    }

    ghost function Now(): State
      reads this
    {
      State(slots, acceptor, running, admitted, released, rejected, refused)
    }

    /** `BoundedSemaphore.acquire(blocking=False)`. */
    method TryAcquire() returns (ok: bool)
      modifies this`slots
      ensures ok <==> old(slots) > 0
      ensures slots == if ok then old(slots) - 1 else old(slots)
    {
      ok := slots > 0;
      if ok {
        slots := slots - 1;
      }
    }

    /** `BoundedSemaphore.release`: refused when no slot is out. */
    method GiveBack(id: nat)
      modifies this`slots, this`released, this`refused
      ensures Now() == Release(maximum, old(Now()), id)
    {
      if slots < maximum {
        slots, released := slots + 1, released + [id];
      } else {
        refused := refused + [id];
      }
    }

    /** The head of `process_request`: take a slot for the connection or turn to rejecting it. */
    method Accept(id: nat)
      requires Enabled(Now(), Arrive(id))
      modifies this
      ensures Now() == Step(maximum, old(Now()), Arrive(id))
    {
      var ok := TryAcquire();
      if ok {
        acceptor, admitted := Starting(id), admitted + {id};
      } else {
        acceptor, rejected := Rejecting(id), rejected + {id};
      }
    }

    /** `process_request_thread`'s last act, whatever the handler did. */
    method FinishThread(id: nat)
      requires Enabled(Now(), Finish(id))
      modifies this
      ensures Now() == Step(maximum, old(Now()), Finish(id))
    {
      GiveBack(id);
      running := running - {id};
    }

    method ReleaseAfterFailure()
      requires Enabled(Now(), ReleaseFailed)
      modifies this
      ensures Now() == Step(maximum, old(Now()), ReleaseFailed)
    {
      GiveBack(acceptor.id);
      acceptor := Idle;
    }

    method Take(e: Event)
      requires Enabled(Now(), e)
      modifies this
      ensures Now() == Step(maximum, old(Now()), e)
    {
      match e
      case Arrive(id) => Accept(id);
      case Launch => acceptor, running := Launched(acceptor.id), running + {acceptor.id};
      case StartFails => acceptor := Releasing(acceptor.id);
      case StartReturns => acceptor := Idle;
      case StartRaisesLate(id) => acceptor := Releasing(id);
      case ReleaseFailed => ReleaseAfterFailure();
      case Finish(id) => FinishThread(id);
      case Reject => acceptor := Idle;
    }

    /** Any interleaving at all, step by step. */
    method Serve(events: seq<Event>)
      requires Now() == Initial(maximum) && Schedule(maximum, Now(), events)
      modifies this
      ensures Now() == Run(maximum, old(Now()), events)
      ensures LateRaises(events) == 0 ==> Accounted(maximum, Now()) && |running| <= maximum
    {
      hide Accounted, LateRaises;
      ghost var start := Now();
      var i := 0;
      while i < |events|
        invariant 0 <= i <= |events|
        invariant Schedule(maximum, Now(), events[i..])
        invariant Run(maximum, Now(), events[i..]) == Run(maximum, start, events)
      {
        ghost var left := events[i..];
        assert left[0] == events[i] && left[1..] == events[i + 1..];
        Take(events[i]);
        i := i + 1;
      }
      assert events[i..] == [];
      InitialAccounted(maximum);
      if LateRaises(events) == 0 {
        EveryRunAccounted(maximum, start, events);
        WithinCapacity(maximum, Now());
      }
    }
  }

  lemma WithinCapacity(maximum: nat, s: State)
    requires Accounted(maximum, s)
    ensures |s.running| <= maximum
  {
    SubsetSize(s.running, InFlight(s));
  }

  lemma SubsetSize(a: set<nat>, b: set<nat>)
    requires a <= b
    ensures |a| <= |b|
  {
    assert b == a + (b - a);
  }

  /** What one `recv` meets: an error or timeout, or up to that many bytes, none when the peer closed. */
  datatype Reading = Fault | Data(count: nat)

  function Least(a: nat, b: nat): nat { if a < b then a else b }

  /** The bytes the next `recv` hands over when `taken` bytes were read before. */
  function Chunk(reading: Reading, taken: nat): nat
    requires taken <= DRAIN_MAX_BYTES
  {
    if reading.Fault? then 0 else Least(reading.count, Least(DRAIN_MAX_BYTES - taken, CHUNK))
  }

  /** Bytes read after k rounds. */
  function Taken(peer: nat -> Reading, k: nat): (n: nat)
    ensures n <= DRAIN_MAX_BYTES && n <= k * CHUNK
  {
    if k == 0 then 0 else Taken(peer, k - 1) + Chunk(peer(k - 1), Taken(peer, k - 1))
  }

  /** The drain goes on to round k: budget and time are left and the peer still sends. */
  predicate GoesOn(peer: nat -> Reading, late: nat -> bool, k: nat) {
    && Taken(peer, k) < DRAIN_MAX_BYTES
    && !late(k)
    && peer(k).Data? && peer(k).count > 0
  }

  /**
    * The tail of `_reject_busy`: `late(k)` tells whether the deadline has passed when round k looks
    * at the clock, `peer(k)` what its `recv` meets. It stops at the first round that cannot go on.
    */
  method Drain(sendFails: bool, peer: nat -> Reading, late: nat -> bool) returns (rounds: nat, bytesRead: nat)
    ensures bytesRead <= DRAIN_MAX_BYTES && rounds <= DRAIN_MAX_BYTES
    ensures bytesRead == Taken(peer, rounds)
    ensures sendFails ==> rounds == 0
    ensures !sendFails ==> !GoesOn(peer, late, rounds) && forall k :: 0 <= k < rounds ==> GoesOn(peer, late, k)
  {
    rounds, bytesRead := 0, 0;
    if sendFails {
      return;
    }
    var bytesLeft := DRAIN_MAX_BYTES;
    while bytesLeft > 0
      invariant bytesLeft == DRAIN_MAX_BYTES - Taken(peer, rounds)
      invariant rounds <= Taken(peer, rounds)
      invariant forall k :: 0 <= k < rounds ==> GoesOn(peer, late, k)
      decreases bytesLeft
    {
      if late(rounds) {
        break;
      }
      var chunk := 0;
      match peer(rounds)
      case Fault => break;
      case Data(count) => chunk := Least(count, Least(bytesLeft, CHUNK));
      if chunk == 0 {
        break;
      }
      bytesLeft := bytesLeft - chunk;
      rounds := rounds + 1;
    }
    bytesRead := DRAIN_MAX_BYTES - bytesLeft;
  }

  /** A peer that never pauses, closes or runs into the deadline is read to the last budgeted byte. */
  lemma {:induction false} SteadyPeerDrained(peer: nat -> Reading, late: nat -> bool, k: nat)
    requires forall j :: 0 <= j < 8 ==> !late(j) && peer(j).Data? && peer(j).count >= CHUNK
    requires k <= 8
    ensures Taken(peer, k) == k * CHUNK
    ensures Taken(peer, k) == DRAIN_MAX_BYTES <==> k == 8
    ensures GoesOn(peer, late, k) || k == 8
  {
    if k > 0 {
      SteadyPeerDrained(peer, late, k - 1);
    }
  }
}
