/** The serialised write chain of server/src/persist.ts: a dirty flag, one promise chain, and a snapshot
taken when a queued flush starts rather than when it was asked for. */
module FlushChain {

  datatype LoadState = Pending | Loaded | Failed

  /** A flush waits on the promise it was chained to, then holds the snapshot it is writing. Settled
  records whether its own promise resolved. */
  datatype Status<T> = Waiting | Writing(snapshot: T) | Settled(resolved: bool)

  datatype Flush<T> = Flush(force: bool, previous: int, status: Status<T>)

  /** What is on disk, as a load would read it back, with the observed bytes normalised: Unreadable stands
  for a file that cannot be trusted, and a missing file reads back as the empty state. */
  datatype Disk<T> = Unreadable | Holding(value: T)

  datatype Store<T> = Store(
    memory: T, dirty: bool, loaded: bool, load: LoadState,
    chain: int, flushes: seq<Flush<T>>, disk: Disk<T>)

  /** What flushTurnState returns: its own promise, the current chain, or one settled at once. */
  datatype Promise = Own(id: nat) | Chain(tail: int) | Resolved | Rejected

  /** How a write ends. A durable write may fail after the rename, when the file is already new. */
  datatype WriteEnd = Wrote | FailedBefore | FailedAfterRename

  // ----- the steps -----

  function Mutate<T>(s: Store<T>, value: T): Store<T> {
    s.(memory := value, dirty := true)
  }

  function Answer<T>(s: Store<T>, force: bool): Promise {
    if s.load.Failed? then (if force then Rejected else Resolved)
    else if !s.loaded && !force then Resolved
    else if !force && !s.dirty then Chain(s.chain)
    else Own(|s.flushes|)
  }

  function Request<T>(s: Store<T>, force: bool): Store<T> {
    if Answer(s, force).Own?
    then s.(dirty := false, flushes := s.flushes + [Flush(force, s.chain, Waiting)], chain := |s.flushes|)
    else s
  }

  predicate MayBegin<T>(s: Store<T>, id: nat) {
    && id < |s.flushes| && s.flushes[id].status.Waiting?
    && (0 <= s.flushes[id].previous < |s.flushes| ==> s.flushes[s.flushes[id].previous].status.Settled?)
  }

  function Begin<T>(s: Store<T>, id: nat): Store<T>
    requires id < |s.flushes|
  {
    var status := if s.load.Failed? then Settled(!s.flushes[id].force) else Writing(s.memory);
    s.(flushes := s.flushes[id := s.flushes[id].(status := status)])
  }

  predicate MayFinish<T>(s: Store<T>, id: nat, end: WriteEnd) {
    id < |s.flushes| && s.flushes[id].status.Writing? && (end.FailedAfterRename? ==> s.flushes[id].force)
  }

  function Finish<T>(s: Store<T>, id: nat, end: WriteEnd): Store<T>
    requires id < |s.flushes| && s.flushes[id].status.Writing?
  {
    var flush := s.flushes[id];
    s.(flushes := s.flushes[id := flush.(status := Settled(end.Wrote? || !flush.force))],
       disk := if end.FailedBefore? then s.disk else Holding(flush.status.snapshot),
       dirty := s.dirty || !end.Wrote?)
  }

  /** Whether the file is of the current month; if not, what rolling it over makes of it. */
  datatype Month<T> = Same | Over(rolled: T)

  function Load<T>(s: Store<T>, empty: T, month: Month<T>): Store<T> {
    if s.loaded then s
    else match s.disk
      case Unreadable => s.(memory := empty, load := Failed)
      case Holding(value) =>
        var read := s.(memory := value, loaded := true, load := Loaded);
        if month.Over? then Mutate(read, month.rolled) else read
  }

  function Recover<T>(s: Store<T>): Store<T> {
    if s.load.Loaded? then s else s.(load := Loaded, loaded := true, dirty := true)
  }

  function Boot<T>(empty: T, disk: Disk<T>): Store<T> {
    Store(empty, false, false, Pending, -1, [], disk)
  }

  class TurnStateFile<T> {
    var state: T
    var dirty: bool
    var loaded: bool
    var turnLoadState: LoadState
    var turnChain: int
    // The promises made so far, and the file.
    var flushes: seq<Flush<T>>
    var disk: Disk<T>

    function Abstract(): Store<T>
      reads this
    {
      Store(state, dirty, loaded, turnLoadState, turnChain, flushes, disk)
    }

    constructor (empty: T, disk: Disk<T>)
      ensures Abstract() == Boot(empty, disk)
    {
      state, dirty, loaded, turnLoadState, turnChain := empty, false, false, Pending, -1;
      flushes, this.disk := [], disk;
    }

    method MarkDirty()
      modifies this`dirty
      ensures dirty
    {
      dirty := true;
    }

    method Update(value: T)
      modifies this
      ensures Abstract() == Mutate(old(Abstract()), value)
    {
      state := value;
      MarkDirty();
    }

    method FlushTurnState(force: bool) returns (promise: Promise)
      modifies this
      ensures Abstract() == Request(old(Abstract()), force) && promise == Answer(old(Abstract()), force)
    {
      if turnLoadState.Failed? {
        return if force then Rejected else Resolved;
      }
      if !loaded && !force {
        return Resolved;
      }
      if !force && !dirty {
        return Chain(turnChain);
      }
      dirty := false;
      var run := |flushes|;
      flushes := flushes + [Flush(force, turnChain, Waiting)];
      turnChain := run;
      return Own(run);
    }

    /** The queued task up to its write: it snapshots the state as it is now. */
    method BeginFlush(run: nat)
      requires MayBegin(Abstract(), run)
      modifies this`flushes
      ensures Abstract() == Begin(old(Abstract()), run)
    {
      if turnLoadState.Failed? {
        flushes := flushes[run := flushes[run].(status := Settled(!flushes[run].force))];
        return;
      }
      flushes := flushes[run := flushes[run].(status := Writing(state))];
    }

    /** The queued task after its write. */
    method EndFlush(run: nat, end: WriteEnd)
      requires MayFinish(Abstract(), run, end)
      modifies this
      ensures Abstract() == Finish(old(Abstract()), run, end)
    {
      var flush := flushes[run];
      if !end.FailedBefore? {
        disk := Holding(flush.status.snapshot);
      }
      if !end.Wrote? {
        dirty := true;
        flushes := flushes[run := flush.(status := Settled(!flush.force))];
        return;
      }
      flushes := flushes[run := flush.(status := Settled(true))];
    }

    method LoadTurnState(empty: T, month: Month<T>)
      modifies this
      ensures Abstract() == Load(old(Abstract()), empty, month)
    {
      if loaded {
        return;
      }
      match disk
      case Unreadable =>
        state := empty;
        turnLoadState := Failed;
      case Holding(value) =>
        state := value;
        if month.Over? {
          Update(month.rolled);
        }
        loaded := true;
        turnLoadState := Loaded;
    }

    method MarkTurnStateRecovered()
      modifies this
      ensures Abstract() == Recover(old(Abstract()))
    {
      if turnLoadState.Loaded? {
        return;
      }
      turnLoadState := Loaded;
      loaded := true;
      MarkDirty();
    }
  }

  // ----- whole runs -----

  datatype Event<T> =
    | Update(value: T)
    | Ask(force: bool)
    | Start(id: nat)
    | End(id: nat, end: WriteEnd)
    | LoadFile(empty: T, month: Month<T>)
    | RecoverState

  /** A queued flush starts only after its predecessor settled, and the file is loaded at start-up,
  before anything is being written. */
  ghost predicate Enabled<T>(s: Store<T>, e: Event<T>) {
    match e
    case Start(id) => MayBegin(s, id)
    case End(id, end) => MayFinish(s, id, end)
    case LoadFile(_, _) => forall id :: 0 <= id < |s.flushes| ==> s.flushes[id].status.Settled?
    case _ => true
  }

  function Step<T>(s: Store<T>, e: Event<T>): Store<T>
    requires Enabled(s, e)
  {
    match e
    case Update(value) => Mutate(s, value)
    case Ask(force) => Request(s, force)
    case Start(id) => Begin(s, id)
    case End(id, end) => Finish(s, id, end)
    case LoadFile(empty, month) => Load(s, empty, month)
    case RecoverState => Recover(s)
  }

  datatype Trace<T> = Started(empty: T, disk: Disk<T>) | After(before: Trace<T>, event: Event<T>)

  ghost predicate Possible<T>(t: Trace<T>)
    decreases t, 0
  {
    t.After? ==> Possible(t.before) && Enabled(Run(t.before), t.event)
  }

  ghost function Run<T>(t: Trace<T>): Store<T>
    requires Possible(t)
    decreases t, 1
  {
    match t
    case Started(empty, disk) => Boot(empty, disk)
    case After(before, e) => Step(Run(before), e)
  }

  // The promises form one chain, and a flush that is not waiting has only settled ones before it.
  ghost predicate Chained<T>(s: Store<T>) {
    && s.chain == |s.flushes| - 1
    && (forall i :: 0 <= i < |s.flushes| ==> s.flushes[i].previous == i - 1)
    && (forall i, j :: 0 <= i < j < |s.flushes| && !s.flushes[j].status.Waiting? ==> s.flushes[i].status.Settled?)
  }

  ghost predicate SomeWaiting<T>(s: Store<T>) {
    exists i :: 0 <= i < |s.flushes| && s.flushes[i].status.Waiting?
  }

  ghost predicate SomeWriting<T>(s: Store<T>) {
    exists i :: 0 <= i < |s.flushes| && s.flushes[i].status.Writing?
  }

  ghost predicate IsWriting<T>(s: Store<T>, i: int) {
    0 <= i < |s.flushes| && s.flushes[i].status.Writing?
  }

  /** Nothing is lost: the dirty flag is up, or a queued flush has yet to snapshot, or the write in
  flight carries the current state, or the disk already has it. */
  ghost predicate NothingLost<T>(s: Store<T>) {
    || s.dirty
    || SomeWaiting(s)
    || (&& (forall i ::
              0 <= i < |s.flushes| && s.flushes[i].status.Writing? ==> s.flushes[i].status.snapshot == s.memory)
        && (!SomeWriting(s) ==> s.disk == Holding(s.memory)))
  }

  ghost predicate Sound<T>(s: Store<T>) {
    && Chained(s)
    && (s.load.Failed? ==> !SomeWriting(s) && s.disk.Unreadable?)
    && (s.load.Loaded? ==> s.loaded && NothingLost(s))
  }

  lemma StepKeepsChain<T>(s: Store<T>, e: Event<T>)
    requires Chained(s) && Enabled(s, e)
    ensures Chained(Step(s, e))
  {
  }

  lemma StepKeepsFailedLoadQuiet<T>(s: Store<T>, e: Event<T>)
    requires Sound(s) && Enabled(s, e)
    ensures Step(s, e).load.Failed? ==> !SomeWriting(Step(s, e)) && Step(s, e).disk.Unreadable?
  {
  }

  // After the flush that starts or ends, everything is waiting; before it, everything is settled.
  lemma AroundTheActive<T>(s: Store<T>, id: nat)
    requires Chained(s) && id < |s.flushes|
    requires s.flushes[id].status.Writing? || MayBegin(s, id)
    ensures forall i :: 0 <= i < id ==> s.flushes[i].status.Settled?
    ensures forall i :: id < i < |s.flushes| ==> s.flushes[i].status.Waiting?
  {
    forall i | 0 <= i < id ensures s.flushes[i].status.Settled? {
      assert s.flushes[id].previous == id - 1;
    }
  }

  lemma StartLosesNothing<T>(s: Store<T>, id: nat)
    requires Sound(s) && MayBegin(s, id) && s.load.Loaded?
    ensures NothingLost(Begin(s, id))
  {
    AroundTheActive(s, id);
    var after := Begin(s, id);
    if id + 1 < |s.flushes| {
      assert after.flushes[id + 1].status.Waiting?;
    } else {
      assert after.flushes[id].status == Writing(after.memory);
    }
  }

  lemma EndLosesNothing<T>(s: Store<T>, id: nat, end: WriteEnd)
    requires Sound(s) && MayFinish(s, id, end) && s.load.Loaded?
    ensures NothingLost(Finish(s, id, end))
  {
    AroundTheActive(s, id);
    var after := Finish(s, id, end);
    if id + 1 < |s.flushes| {
      assert after.flushes[id + 1].status.Waiting?;
    } else {
      assert !SomeWaiting(s) && !SomeWriting(after);
    }
  }

  lemma AskLosesNothing<T>(s: Store<T>, force: bool)
    requires Sound(s) && s.load.Loaded?
    ensures NothingLost(Request(s, force))
  {
    var after := Request(s, force);
    if Answer(s, force).Own? {
      assert after.flushes[|s.flushes|].status.Waiting?;
    }
  }

  lemma StepLosesNothing<T>(s: Store<T>, e: Event<T>)
    requires Sound(s) && Enabled(s, e)
    ensures Step(s, e).load.Loaded? ==> Step(s, e).loaded && NothingLost(Step(s, e))
  {
    if s.load.Loaded? {
      match e
      case Start(id) => StartLosesNothing(s, id);
      case End(id, end) => EndLosesNothing(s, id, end);
      case Ask(force) => AskLosesNothing(s, force);
      case _ =>
    }
  }

  /** Over every run: once the state is loaded no update is lost, and at most one write is in flight. */
  lemma {:induction false} RunsAreSound<T>(t: Trace<T>)
    requires Possible(t)
    ensures Sound(Run(t))
    ensures forall i, j :: IsWriting(Run(t), i) && IsWriting(Run(t), j) ==> i == j
  {
    if t.After? {
      RunsAreSound(t.before);
      StepKeepsChain(Run(t.before), t.event);
      StepKeepsFailedLoadQuiet(Run(t.before), t.event);
      StepLosesNothing(Run(t.before), t.event);
    }
  }

  /** A failed load is never overwritten: until an authoritative recovery no step of any run changes
  the file or leaves the failed state. */
  lemma FailedLoadIsKept<T>(t: Trace<T>)
    requires Possible(t) && t.After? && Run(t.before).load.Failed? && !t.event.RecoverState?
    ensures Run(t).load.Failed? && Run(t).disk == Run(t.before).disk == Unreadable
  {
    RunsAreSound(t.before);
  }

  // ----- durability -----

  /** From the request of flush `id` on, `keeps` holds of the state in memory, of every snapshot that
  flush or a later one is writing, and, once that flush has resolved, of the file. */
  ghost predicate Protects<T>(s: Store<T>, id: nat, keeps: T -> bool) {
    && id < |s.flushes| && s.flushes[id].force
    && keeps(s.memory)
    && (forall i :: id <= i < |s.flushes| && s.flushes[i].status.Writing? ==> keeps(s.flushes[i].status.snapshot))
    && (s.flushes[id].status == Settled(true) ==> s.disk.Holding? && keeps(s.disk.value))
  }

  /** A strict flush starts protecting what holds of the state when it is asked for. */
  lemma StrictFlushProtects<T>(s: Store<T>, keeps: T -> bool)
    requires Answer(s, true).Own? && keeps(s.memory)
    ensures Protects(Request(s, true), |s.flushes|, keeps)
  {
  }

  /** No interleaving of updates that keep the property, of other flushes, and of failing writes can
  take it from the file again: an older snapshot never lands on a newer one. */
  lemma StepKeepsProtection<T>(s: Store<T>, e: Event<T>, id: nat, keeps: T -> bool)
    requires Chained(s) && s.loaded && s.load.Loaded? && Enabled(s, e) && Protects(s, id, keeps)
    requires e.Update? ==> keeps(e.value)
    ensures Protects(Step(s, e), id, keeps)
  {
    match e
    case Start(i) => AroundTheActive(s, i);
    case End(i, end) => AroundTheActive(s, i);
    case _ =>
  }
}
