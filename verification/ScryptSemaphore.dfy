/** The bounded passcode-hashing semaphore of server/src/store.ts: a releaser hands its slot to the
first waiter instead of giving it back, and arrivals beyond the queue bound are refused. */
module ScryptSemaphore {

  import opened Common

  type Caller = nat

  /** SCRYPT_MAX_CONCURRENT and SCRYPT_MAX_QUEUE. */
  datatype Limits = Limits(concurrent: nat, queue: nat)

  datatype Outcome = Granted | Queued | Busy

  datatype Slots = Slots(inFlight: int, waiters: seq<Caller>)

  function OnArrival(limits: Limits, s: Slots): Outcome {
    if s.inFlight < limits.concurrent then Granted
    else if |s.waiters| >= limits.queue then Busy
    else Queued
  }

  function Arrive(limits: Limits, s: Slots, c: Caller): Slots {
    match OnArrival(limits, s)
    case Granted => s.(inFlight := s.inFlight + 1)
    case Queued => s.(waiters := s.waiters + [c])
    case Busy => s
  }

  function Release(s: Slots): Slots {
    if s.waiters == [] then s.(inFlight := s.inFlight - 1) else s.(waiters := s.waiters[1..])
  }

  class Semaphore {
    const limits: Limits
    var scryptInFlight: int
    var scryptWaiters: seq<Caller>

    constructor (limits: Limits)
      ensures this.limits == limits && Slots(scryptInFlight, scryptWaiters) == Slots(0, [])
    {
      this.limits := limits;
      scryptInFlight, scryptWaiters := 0, [];
    }

    /** Queued stands for the promise that the hand-off resolves, Busy for ScryptBusyError. */
    method AcquireScryptSlot(c: Caller) returns (outcome: Outcome)
      modifies this
      ensures outcome == OnArrival(limits, old(Slots(scryptInFlight, scryptWaiters)))
      ensures Slots(scryptInFlight, scryptWaiters) == Arrive(limits, old(Slots(scryptInFlight, scryptWaiters)), c)
    {
      if scryptInFlight < limits.concurrent {
        scryptInFlight := scryptInFlight + 1;
        return Granted;
      }
      if |scryptWaiters| >= limits.queue {
        return Busy;
      }
      scryptWaiters := scryptWaiters + [c];
      return Queued;
    }

    /** Returns the waiter that was woken, if any: it owns the slot from here on. */
    method ReleaseScryptSlot() returns (woken: seq<Caller>)
      modifies this
      ensures woken == if old(scryptWaiters) == [] then [] else [old(scryptWaiters)[0]]
      ensures Slots(scryptInFlight, scryptWaiters) == Release(old(Slots(scryptInFlight, scryptWaiters)))
    {
      if scryptWaiters != [] {
        woken := [scryptWaiters[0]];
        scryptWaiters := scryptWaiters[1..];
      } else {
        woken := [];
        scryptInFlight := scryptInFlight - 1;
      }
    }
  }

  // ----- whole runs -----

  datatype Event = Acquire(c: Caller) | Done(c: Caller)

  datatype Trace = Boot | After(before: Trace, event: Event)

  function Run(limits: Limits, t: Trace): Slots {
    match t
    case Boot => Slots(0, [])
    case After(before, Acquire(c)) => Arrive(limits, Run(limits, before), c)
    case After(before, Done(_)) => Release(Run(limits, before))
  }

  /** Every caller that was not refused, in order of arrival. */
  function Admitted(limits: Limits, t: Trace): seq<Caller> {
    match t
    case Boot => []
    case After(before, Acquire(c)) =>
      Admitted(limits, before) + (if OnArrival(limits, Run(limits, before)) == Busy then [] else [c])
    case After(before, Done(_)) => Admitted(limits, before)
  }

  /** Every caller that came to own a slot, in the order in which they got it. */
  function Served(limits: Limits, t: Trace): seq<Caller> {
    match t
    case Boot => []
    case After(before, Acquire(c)) =>
      Served(limits, before) + (if OnArrival(limits, Run(limits, before)) == Granted then [c] else [])
    case After(before, Done(_)) =>
      var waiters := Run(limits, before).waiters;
      Served(limits, before) + (if waiters == [] then [] else [waiters[0]])
  }

  function Finished(t: Trace): set<Caller> {
    match t
    case Boot => {}
    case After(before, Acquire(_)) => Finished(before)
    case After(before, Done(c)) => Finished(before) + {c}
  }

  function Elements(s: seq<Caller>): set<Caller> {
    set c | c in s
  }

  /** The callers inside the hash right now. */
  function Holders(limits: Limits, t: Trace): set<Caller> {
    Elements(Served(limits, t)) - Finished(t)
  }

  /** Callers are distinct promises, and only a holder releases, once. */
  ghost predicate WellBehaved(limits: Limits, t: Trace) {
    match t
    case Boot => true
    case After(before, Acquire(c)) => WellBehaved(limits, before) && c !in Admitted(limits, before)
    case After(before, Done(c)) => WellBehaved(limits, before) && c in Holders(limits, before)
  }

  /** Nobody waits while a slot is free, and both bounds hold. */
  lemma {:induction false} BoundsHold(limits: Limits, t: Trace)
    requires limits.concurrent >= 1 && WellBehaved(limits, t)
    ensures Run(limits, t).inFlight <= limits.concurrent
    ensures Run(limits, t).waiters != [] ==> Run(limits, t).inFlight == limits.concurrent
    ensures |Run(limits, t).waiters| <= limits.queue
  {
    if t.After? {
      BoundsHold(limits, t.before);
    }
  }

  /** First come, first served: the admitted callers are the served ones followed by the waiting
  ones, in the order they came, so no late arrival overtakes. */
  lemma {:induction false} ServedInOrderOfArrival(limits: Limits, t: Trace)
    requires limits.concurrent >= 1 && WellBehaved(limits, t)
    ensures Admitted(limits, t) == Served(limits, t) + Run(limits, t).waiters
    ensures Distinct(Admitted(limits, t))
  {
    if t.After? {
      ServedInOrderOfArrival(limits, t.before);
      BoundsHold(limits, t.before);
    }
  }

  // The caller the event puts in possession of a slot, if any.
  function Grantee(limits: Limits, before: Trace, e: Event): seq<Caller> {
    var s := Run(limits, before);
    match e
    case Acquire(c) => if OnArrival(limits, s) == Granted then [c] else []
    case Done(_) => if s.waiters == [] then [] else [s.waiters[0]]
  }

  lemma GranteeIsNew(limits: Limits, before: Trace, e: Event)
    requires limits.concurrent >= 1 && WellBehaved(limits, After(before, e))
    ensures Served(limits, After(before, e)) == Served(limits, before) + Grantee(limits, before, e)
    ensures Grantee(limits, before, e) != [] ==> Grantee(limits, before, e)[0] !in Served(limits, before)
  {
    ServedInOrderOfArrival(limits, before);
    var served, admitted := Served(limits, before), Admitted(limits, before);
    assert forall c :: c in served ==> c in admitted;
    if e.Done? && Run(limits, before).waiters != [] {
      assert admitted[|served|] == Run(limits, before).waiters[0];
      assert forall i :: 0 <= i < |served| ==> served[i] == admitted[i];
    }
  }

  lemma ElementsAppend(s: seq<Caller>, x: Caller)
    ensures Elements(s + [x]) == Elements(s) + {x}
  {
  }

  // One step on the set of holders, apart from any run.
  lemma HandOff(served: seq<Caller>, finished: set<Caller>, granted: seq<Caller>, ended: set<Caller>)
    requires finished <= Elements(served) && ended <= Elements(served) - finished
    requires granted == [] || (|granted| == 1 && granted[0] !in served)
    ensures finished + ended <= Elements(served + granted)
    ensures |Elements(served + granted) - (finished + ended)| == |Elements(served) - finished| - |ended| + |granted|
  {
    var kept := Elements(served) - finished - ended;
    if granted == [] {
      assert served + granted == served;
      assert Elements(served) - (finished + ended) == kept;
    } else {
      ElementsAppend(served, granted[0]);
      assert Elements(served + granted) - (finished + ended) == kept + {granted[0]};
    }
  }

  /** Every slot is accounted for: the holders number exactly scryptInFlight. */
  lemma {:induction false} HoldersAreCounted(limits: Limits, t: Trace)
    requires limits.concurrent >= 1 && WellBehaved(limits, t)
    ensures Finished(t) <= Elements(Served(limits, t))
    ensures |Holders(limits, t)| == Run(limits, t).inFlight
  {
    if t.After? {
      var e := t.event;
      HoldersAreCounted(limits, t.before);
      GranteeIsNew(limits, t.before, e);
      var ended := if e.Done? then {e.c} else {};
      HandOff(Served(limits, t.before), Finished(t.before), Grantee(limits, t.before, e), ended);
      assert Finished(t) == Finished(t.before) + ended;
    }
  }

  function Releases(t: Trace): nat {
    match t
    case Boot => 0
    case After(before, e) => Releases(before) + (if e.Done? then 1 else 0)
  }

  ghost predicate Extends(later: Trace, earlier: Trace) {
    later == earlier || (later.After? && Extends(later.before, earlier))
  }

  /** Bounded waiting: the waiter at position k owns a slot once k + 1 releases have happened,
  whatever else arrives in between. */
  lemma {:induction false} WaiterIsServed(limits: Limits, earlier: Trace, later: Trace, k: nat)
    requires limits.concurrent >= 1 && WellBehaved(limits, earlier) && WellBehaved(limits, later)
    requires Extends(later, earlier) && k < |Run(limits, earlier).waiters|
    ensures Releases(later) >= Releases(earlier)
    ensures var released := Releases(later) - Releases(earlier);
            var waiter := Run(limits, earlier).waiters[k];
            if released > k then waiter in Served(limits, later)
            else |Run(limits, later).waiters| > k - released && Run(limits, later).waiters[k - released] == waiter
  {
    ServedInOrderOfArrival(limits, later);
    if later != earlier {
      WaiterIsServed(limits, earlier, later.before, k);
    }
  }
}
