/** Crash safety of the abuse path: what is on disk whenever an external revoke is called. */
module TurnCrash {

  import opened Common
  import opened TurnState
  import opened TurnMachine
  import opened TurnOps
  import opened TurnRuns
  import opened TurnSettlement
  import FC = FlushChain

  /** One abusive credential as the abuse path condemned it, and the strict flush it then waited for. */
  datatype Mark = Mark(ref: Ref, cid: string, principal: string, until: int, rows: seq<Row>, flush: nat)

  // ----- what must not be lost -----

  predicate DeniedUntil(t: Turn, key: DenyKey, until: int) {
    key in t.deny && t.deny[key].until >= until
  }

  /** The denial under this key stands until then, and nothing that renews it ends sooner. */
  predicate KeyHeld(cfg: Config, t: Turn, key: DenyKey, until: int, now: int) {
    until <= now + cfg.banMs && (now < until ==> DeniedUntil(t, key, until))
  }

  /** The principal and the session stay denied until the ban runs out. */
  ghost predicate DenyHeld(cfg: Config, t: Turn, k: Mark, now: int) {
    KeyHeld(cfg, t, PrincipalKey(k.principal), k.until, now) && KeyHeld(cfg, t, CidKey(k.cid), k.until, now)
  }

  /** Its ledger rows stay until they are older than an hour. */
  ghost predicate RowsHeld(t: Turn, k: Mark, now: int) {
    forall row :: row in k.rows && row.at >= now - HOUR_MS ==> row in t.ledger
  }

  /** It is settled and queued for revocation, unless it was already revoked, expired or rolled back and
  nothing was issued in its place, or the ban has run out. */
  ghost predicate EntryHeld(t: Turn, k: Mark, now: int) {
    && k.ref in t.creds && t.creds[k.ref].settled && t.creds[k.ref].cid == k.cid
    && PrincipalOf(t.creds[k.ref], k.cid) == k.principal
    && (|| (Active(t, k.cid, k.ref) && t.creds[k.ref].revokePending)
        || (k.cid !in t.active && k.ref in t.log.gone && !t.log.gone[k.ref].Replaced?)
        || now >= k.until)
  }

  ghost predicate Held(cfg: Config, t: Turn, k: Mark, now: int) {
    Keyed(t) && DenyHeld(cfg, t, k, now) && RowsHeld(t, k, now) && EntryHeld(t, k, now)
  }

  lemma HeldLater(cfg: Config, t: Turn, k: Mark, now: int, later: int)
    requires Held(cfg, t, k, now) && now <= later
    ensures Held(cfg, t, k, later)
  {
  }

  // ----- every operation keeps it -----

  lemma EditingLeavesTheDenials(cfg: Config, t: Turn, op: Op, at: At)
    requires May(cfg, t, op, at) && Editing(op)
    ensures Do(cfg, t, op, at).deny == t.deny
  {
  }

  lemma AnsweringLeavesTheDenials(cfg: Config, t: Turn, op: Op, at: At)
    requires May(cfg, t, op, at) && Answering(op)
    ensures Do(cfg, t, op, at).deny == t.deny
  {
  }

  lemma OthersLeaveTheDenials(cfg: Config, t: Turn, op: Op, at: At)
    requires May(cfg, t, op, at) && !op.PruneDenials? && !op.DenyOp?
    ensures Do(cfg, t, op, at).deny == t.deny
  {
    if Editing(op) {
      EditingLeavesTheDenials(cfg, t, op, at);
    } else if Answering(op) {
      AnsweringLeavesTheDenials(cfg, t, op, at);
    }
  }

  lemma OpKeepsKey(cfg: Config, t: Turn, op: Op, at: At, key: DenyKey, until: int)
    requires May(cfg, t, op, at) && KeyHeld(cfg, t, key, until, at.now)
    ensures KeyHeld(cfg, Do(cfg, t, op, at), key, until, at.now)
  {
    if !op.PruneDenials? && !op.DenyOp? {
      OthersLeaveTheDenials(cfg, t, op, at);
    }
  }

  lemma OpKeepsDenial(cfg: Config, t: Turn, op: Op, at: At, k: Mark)
    requires May(cfg, t, op, at) && DenyHeld(cfg, t, k, at.now)
    ensures DenyHeld(cfg, Do(cfg, t, op, at), k, at.now)
  {
    OpKeepsKey(cfg, t, op, at, PrincipalKey(k.principal), k.until);
    OpKeepsKey(cfg, t, op, at, CidKey(k.cid), k.until);
  }

  lemma {:induction false} RowsFromKeeps(ledger: seq<Row>, cutoff: int)
    ensures forall row :: row in RowsFrom(ledger, cutoff) <==> row in ledger && row.at >= cutoff
  {
    if ledger != [] {
      RowsFromKeeps(ledger[..|ledger| - 1], cutoff);
      assert ledger == ledger[..|ledger| - 1] + [ledger[|ledger| - 1]];
    }
  }

  lemma OthersOnlyAddRows(cfg: Config, t: Turn, op: Op, at: At)
    requires May(cfg, t, op, at) && !op.PruneRows?
    ensures t.ledger <= Do(cfg, t, op, at).ledger
  {
  }

  lemma OpKeepsRows(cfg: Config, t: Turn, op: Op, at: At, k: Mark)
    requires May(cfg, t, op, at) && RowsHeld(t, k, at.now)
    ensures RowsHeld(Do(cfg, t, op, at), k, at.now)
  {
    if op.PruneRows? {
      RowsFromKeeps(t.ledger, at.now - HOUR_MS);
    } else {
      OthersOnlyAddRows(cfg, t, op, at);
    }
  }

  lemma ReserveKeepsEntry(cfg: Config, t: Turn, op: Op, at: At, k: Mark)
    requires May(cfg, t, op, at) && Keyed(t) && EntryHeld(t, k, at.now)
    requires DenyHeld(cfg, t, k, at.now) && op.ReserveOp?
    ensures EntryHeld(Do(cfg, t, op, at), k, at.now)
  {
    assert op.cid == k.cid ==> at.now >= k.until;
    assert op.cid in t.active ==> t.active[op.cid] != k.ref || op.cid == k.cid;
  }

  predicate EditsRecord(op: Op) {
    op.PendingOp? || op.AttemptOp? || op.CorrectOp?
  }

  lemma EditKeepsEntry(cfg: Config, t: Turn, op: Op, at: At, k: Mark)
    requires May(cfg, t, op, at) && EntryHeld(t, k, at.now) && EditsRecord(op)
    ensures EntryHeld(Do(cfg, t, op, at), k, at.now)
  {
  }

  lemma SettleKeepsEntry(cfg: Config, t: Turn, op: Op, at: At, k: Mark)
    requires May(cfg, t, op, at) && EntryHeld(t, k, at.now) && op.SettleOp?
    ensures EntryHeld(Do(cfg, t, op, at), k, at.now)
  {
  }

  lemma RemovalKeepsEntry(cfg: Config, t: Turn, op: Op, at: At, k: Mark)
    requires May(cfg, t, op, at) && Keyed(t) && EntryHeld(t, k, at.now)
    requires op.RemoveOp? || op.RollbackOp? || op.GrantOp?
    ensures EntryHeld(Do(cfg, t, op, at), k, at.now)
  {
  }

  lemma OpKeepsEntry(cfg: Config, t: Turn, op: Op, at: At, k: Mark)
    requires May(cfg, t, op, at) && Keyed(t) && EntryHeld(t, k, at.now) && DenyHeld(cfg, t, k, at.now)
    ensures EntryHeld(Do(cfg, t, op, at), k, at.now)
  {
    if Bookkeeping(op) {
      BookkeepingLeaves(cfg, t, op, at);
    } else if op.ReserveOp? {
      ReserveKeepsEntry(cfg, t, op, at, k);
    } else if op.SettleOp? {
      SettleKeepsEntry(cfg, t, op, at, k);
    } else if EditsRecord(op) {
      EditKeepsEntry(cfg, t, op, at, k);
    } else {
      RemovalKeepsEntry(cfg, t, op, at, k);
    }
  }

  lemma OpKeepsHeld(cfg: Config, t: Turn, op: Op, at: At, k: Mark)
    requires May(cfg, t, op, at) && Held(cfg, t, k, at.now)
    ensures Held(cfg, Do(cfg, t, op, at), k, at.now)
  {
    OpKeepsKeyed(cfg, t, op, at);
    OpKeepsDenial(cfg, t, op, at, k);
    OpKeepsRows(cfg, t, op, at, k);
    OpKeepsEntry(cfg, t, op, at, k);
  }

  lemma StepKeepsHeld(cfg: Config, s: Sys, e: Event, env: Env, k: Mark)
    requires WellFormed(s) && Held(cfg, s.t, k, env.now)
    ensures Held(cfg, Step(cfg, s, e, env).t, k, env.now)
  {
    var at := AtStep(cfg, s, e, env);
    forall t, op | Held(cfg, t, k, at.now) && May(cfg, t, op, at) ensures Held(cfg, Do(cfg, t, op, at), k, at.now) {
      OpKeepsHeld(cfg, t, op, at, k);
    }
    StepKeeps(cfg, s, e, env, t => Held(cfg, t, k, env.now));
  }

  // ----- condemning -----

  function RowsOf(ledger: seq<Row>, ref: Ref): seq<Row> {
    if ledger == [] then []
    else
      var init, last := RowsOf(ledger[..|ledger| - 1], ref), ledger[|ledger| - 1];
      if last.from == ref then init + [last] else init
  }

  lemma {:induction false} RowsOfAreRows(ledger: seq<Row>, ref: Ref)
    ensures forall row :: row in RowsOf(ledger, ref) <==> row in ledger && row.from == ref
  {
    if ledger != [] {
      RowsOfAreRows(ledger[..|ledger| - 1], ref);
      assert ledger == ledger[..|ledger| - 1] + [ledger[|ledger| - 1]];
    }
  }

  function MarkOf(cfg: Config, t: Turn, cid: string, ref: Ref, now: int, flush: nat): Mark
    requires ref in t.creds
  {
    Mark(ref, cid, PrincipalOf(t.creds[ref], cid), now + cfg.banMs, RowsOf(t.ledger, ref), flush)
  }

  /** The synchronous half of the abuse path establishes everything that must not be lost, and the ledger
  row of bytes not settled before. */
  lemma CondemnHolds(cfg: Config, t: Turn, cid: string, actual: nat, now: int, flush: nat)
    requires Keyed(t) && cid in t.active && actual <= t.creds[t.active[cid]].cfActual && cfg.banMs > 0
    ensures var ref := t.active[cid];
            var r := Condemn(cfg, t, cid, ref, actual, now);
            && ref in r.creds && Held(cfg, r, MarkOf(cfg, r, cid, ref, now, flush), now)
            && (!t.creds[ref].settled && t.creds[ref].cfActual > 0 ==>
                  Row(t.creds[ref].ip, t.creds[ref].cfActual, now, ref) in RowsOf(r.ledger, ref))
  {
    var ref := t.active[cid];
    CondemnConserves(cfg, t, cid, actual, now, "");
    var settled := Settle(t, ref, actual, now);
    var r := Condemn(cfg, t, cid, ref, actual, now);
    assert r.ledger == settled.ledger && r.active == t.active && r.creds[ref].revokePending;
    RowsOfAreRows(r.ledger, ref);
    CondemnDenies(cfg, settled, PrincipalOf(settled.creds[ref], cid), settled.creds[ref].ip, cid, now);
  }

  lemma CondemnDenies(cfg: Config, t: Turn, principal: string, ip: string, cid: string, now: int)
    requires cfg.banMs > 0
    ensures var deny := ApplyDeny(cfg, t, principal, ip, cid, now).deny;
            && PrincipalKey(principal) in deny && deny[PrincipalKey(principal)].until == now + cfg.banMs
            && CidKey(cid) in deny && deny[CidKey(cid)].until == now + cfg.banMs
  {
  }

  // ----- the machine together with its file -----

  type Store = FC.Store<Turn>

  /** `marks` keeps, for each polling task, what it last condemned. */
  datatype World = World(sys: Sys, store: Store, marks: map<nat, Mark>)

  datatype Deed =
    // one atomic step of the machine; `dirtied` says whether it raised the dirty flag
    | Act(event: Event, env: Env, dirtied: bool)
    // any other caller of the flush, and the file operations of a queued one
    | Ask(force: bool)
    | Start(id: nat)
    | End(id: nat, end: FC.WriteEnd)

  /** Does this step condemn a credential and go on to wait for its strict flush? */
  ghost predicate Condemns(cfg: Config, s: Sys, e: Event, env: Env) {
    && WellFormed(s) && Enabled(s, e) && e.Resume? && s.tasks[e.id].ApplyingRows? && s.tasks[e.id].rows != []
    && s.tasks[e.id].rows[0].0 in s.t.active && s.tasks[e.id].rows[0].1 >= cfg.maxBytesPerSession
  }

  function Remember(store: Store, before: Sys, after: Sys, dirtied: bool): Store {
    var touched := store.(memory := after.t, dirty := store.dirty || dirtied);
    if after.ready && !before.ready then FC.Recover(touched) else touched
  }

  /** A strict flush answers after its own promise did, and that it succeeded only if this file's write did;
  it may also fail because of the other file. */
  ghost predicate Allowed(w: World, d: Deed) {
    match d
    case Act(e, _, _) =>
      && Enabled(w.sys, e)
      && (e.Resume? && w.sys.tasks[e.id].AbuseFlushing? ==>
            e.id in w.marks && w.marks[e.id].flush < |w.store.flushes|
            && w.store.flushes[w.marks[e.id].flush].status.Settled?
            && (e.reply.ok ==> w.store.flushes[w.marks[e.id].flush].status.resolved))
    case Ask(_) => true
    case Start(id) => FC.MayBegin(w.store, id)
    case End(id, end) => FC.MayFinish(w.store, id, end)
  }

  ghost function Next(cfg: Config, w: World, d: Deed): World
    requires Allowed(w, d)
  {
    match d
    case Act(e, env, dirtied) =>
      var sys := Step(cfg, w.sys, e, env);
      var store := Remember(w.store, w.sys, sys, dirtied);
      if Condemns(cfg, w.sys, e, env)
      then
        var (cid, ref) := (w.sys.tasks[e.id].rows[0].0, w.sys.t.active[w.sys.tasks[e.id].rows[0].0]);
        CondemnedKept(cfg, w.sys, e, env);
        World(sys, FC.Request(store, true), w.marks[e.id := MarkOf(cfg, sys.t, cid, ref, env.now, |store.flushes|)])
      else World(sys, store, w.marks)
    case Ask(force) => w.(store := FC.Request(w.store, force))
    case Start(id) => w.(store := FC.Begin(w.store, id))
    case End(id, end) => w.(store := FC.Finish(w.store, id, end))
  }

  lemma CondemnedKept(cfg: Config, s: Sys, e: Event, env: Env)
    requires Condemns(cfg, s, e, env)
    ensures var (cid, actual) := s.tasks[e.id].rows[0];
            var ref := s.t.active[cid];
            && ref in Step(cfg, s, e, env).t.creds
            && Step(cfg, s, e, env).t == Condemn(cfg, Correct(s.t, cid, actual), cid, ref, actual, env.now)
            && Step(cfg, s, e, env).tasks == s.tasks[e.id := AbuseFlushing(cid, ref, s.tasks[e.id].rows[1..])]
            && Step(cfg, s, e, env).ready == s.ready
  {
  }

  datatype History = Woken(w: World, at: int) | Then(before: History, deed: Deed)

  function Clock(h: History): int {
    match h
    case Woken(_, at) => at
    case Then(before, d) => if d.Act? then d.env.now else Clock(before)
  }

  /** A started process: the file is loaded, and if it could not be there is nothing to protect yet. */
  ghost predicate Awake(w: World, at: int) {
    && Boot(w.sys, at) && w.store.memory == w.sys.t && w.store.flushes == [] && w.store.chain == -1
    && (if w.sys.ready then w.store.load.Loaded? && w.store.loaded else w.store.load.Failed? && w.sys.t.active == map[])
    && w.marks == map[]
  }

  /** A process that has just loaded its file is awake. */
  lemma FirstStartIsAwake(month: int, at: int)
    requires at >= HOUR_MS
    ensures var sys := Sys(NewTurn(month), true, map[], 0, 0, 0, false, false, false);
            Awake(World(sys, FC.Load(FC.Boot(NewTurn(month), FC.Holding(NewTurn(month))), NewTurn(month), FC.Same),
              map[]), at)
  {
    FirstStartBoots(month, at);
  }

  ghost predicate Happens(cfg: Config, h: History)
    decreases h, 0
  {
    match h
    case Woken(w, at) => Awake(w, at)
    case Then(before, d) =>
      Happens(cfg, before) && Allowed(Replay(cfg, before), d) && (d.Act? ==> Clock(before) <= d.env.now)
  }

  ghost function Replay(cfg: Config, h: History): World
    requires Happens(cfg, h)
    decreases h, 1
  {
    match h
    case Woken(w, _) => w
    case Then(before, d) => Next(cfg, Replay(cfg, before), d)
  }

  // ----- the invariant -----

  ghost function HeldNow(cfg: Config, k: Mark, now: int): Turn -> bool {
    t => Held(cfg, t, k, now)
  }

  ghost predicate Based(w: World) {
    && Healthy(w.sys) && Keyed(w.sys.t) && w.store.memory == w.sys.t && FC.Chained(w.store)
    && (if w.sys.ready then w.store.load.Loaded? && w.store.loaded
        else w.store.load.Failed? && w.sys.t.active == map[] && w.marks == map[])
  }

  ghost predicate Protected(cfg: Config, w: World, now: int) {
    forall id :: id in w.marks ==> FC.Protects(w.store, w.marks[id].flush, HeldNow(cfg, w.marks[id], now))
  }

  predicate Abuse(task: Task) {
    task.AbuseFlushing? || task.AbuseRevoking?
  }

  /** A task in the abuse path is marked, and has passed its flush once it revokes. */
  ghost predicate Vouched(store: Store, marks: map<nat, Mark>, id: nat, task: Task) {
    Abuse(task) ==>
      && id in marks && marks[id].ref == task.ref && marks[id].cid == task.cid && marks[id].flush < |store.flushes|
      && (task.AbuseRevoking? ==> store.flushes[marks[id].flush].status == FC.Settled(true))
  }

  ghost predicate AllVouched(w: World) {
    forall id :: id in w.sys.tasks ==> Vouched(w.store, w.marks, id, w.sys.tasks[id])
  }

  lemma ProtectedLater(cfg: Config, w: World, now: int, later: int)
    requires Protected(cfg, w, now) && now <= later
    ensures Protected(cfg, w, later)
  {
    forall id | id in w.marks ensures FC.Protects(w.store, w.marks[id].flush, HeldNow(cfg, w.marks[id], later)) {
      ProtectsLater(cfg, w.store, w.marks[id], now, later);
    }
  }

  lemma ProtectsLater(cfg: Config, store: Store, k: Mark, now: int, later: int)
    requires FC.Protects(store, k.flush, HeldNow(cfg, k, now)) && now <= later
    ensures FC.Protects(store, k.flush, HeldNow(cfg, k, later))
  {
    forall t | Held(cfg, t, k, now) ensures Held(cfg, t, k, later) {
      HeldLater(cfg, t, k, now, later);
    }
    forall i | k.flush <= i < |store.flushes| && store.flushes[i].status.Writing?
      ensures HeldNow(cfg, k, later)(store.flushes[i].status.snapshot)
    {
      assert HeldNow(cfg, k, now)(store.flushes[i].status.snapshot);
    }
  }

  lemma TouchProtects(store: Store, flush: nat, keeps: Turn -> bool, value: Turn, dirty: bool)
    requires FC.Protects(store, flush, keeps) && keeps(value)
    ensures FC.Protects(store.(memory := value, dirty := dirty), flush, keeps)
  {
  }

  // ----- file steps -----

  function ChainEvent(d: Deed): FC.Event<Turn>
    requires !d.Act?
  {
    match d
    case Ask(force) => FC.Event.Ask(force)
    case Start(id) => FC.Event.Start(id)
    case End(id, end) => FC.Event.End(id, end)
  }

  lemma FileStepProtects(cfg: Config, w: World, d: Deed, now: int)
    requires FC.Chained(w.store) && Protected(cfg, w, now) && !d.Act? && Allowed(w, d)
    requires w.marks == map[] || (w.store.load.Loaded? && w.store.loaded)
    ensures Protected(cfg, Next(cfg, w, d), now)
  {
    var e := ChainEvent(d);
    var r := Next(cfg, w, d);
    assert r.store == FC.Step(w.store, e) && r.marks == w.marks;
    forall id | id in r.marks ensures FC.Protects(r.store, r.marks[id].flush, HeldNow(cfg, r.marks[id], now)) {
      FC.StepKeepsProtection(w.store, e, w.marks[id].flush, HeldNow(cfg, w.marks[id], now));
    }
  }

  lemma FileStepVouches(cfg: Config, w: World, d: Deed)
    requires AllVouched(w) && !d.Act? && Allowed(w, d)
    ensures AllVouched(Next(cfg, w, d))
  {
    var r := Next(cfg, w, d);
    forall id | id in r.sys.tasks ensures Vouched(r.store, r.marks, id, r.sys.tasks[id]) {
      assert Vouched(w.store, w.marks, id, w.sys.tasks[id]);
    }
  }

  lemma FileStepBased(cfg: Config, w: World, d: Deed)
    requires Based(w) && !d.Act? && Allowed(w, d)
    ensures Based(Next(cfg, w, d))
  {
    var r := Next(cfg, w, d);
    FC.StepKeepsChain(w.store, ChainEvent(d));
    assert r.sys == w.sys && r.marks == w.marks;
    assert r.store == FC.Step(w.store, ChainEvent(d));
  }

  // ----- steps of the machine -----

  lemma NothingActiveStays(cfg: Config, s: Sys, e: Event, env: Env)
    requires WellFormed(s) && !s.ready && s.t.active == map[]
    ensures Step(cfg, s, e, env).t.active == map[]
  {
    var at := AtStep(cfg, s, e, env);
    forall t: Turn, op | t.active == map[] && May(cfg, t, op, at) ensures Do(cfg, t, op, at).active == map[] {
      OpActivatesNothing(cfg, t, op, at);
    }
    StepKeeps(cfg, s, e, env, (t: Turn) => t.active == map[]);
  }

  lemma OpActivatesNothing(cfg: Config, t: Turn, op: Op, at: At)
    requires May(cfg, t, op, at) && at.newRef < 0 && t.active == map[]
    ensures Do(cfg, t, op, at).active == map[]
  {
    if Bookkeeping(op) {
      BookkeepingLeaves(cfg, t, op, at);
    } else if !op.ReserveOp? {
      OthersActivateNothing(cfg, t, op, at);
    }
  }

  /** A step that neither starts nor ends the fail-closed state nor enters the abuse path. */
  ghost predicate Mild(s: Sys, r: Sys, id: nat) {
    r.ready == s.ready && !(id in r.tasks && Abuse(r.tasks[id]))
  }

  lemma IssuedMild(cfg: Config, s: Sys, id: nat, ok: bool)
    requires id in s.tasks && s.tasks[id].Issuing?
    ensures Mild(s, OnIssued(cfg, s, id, s.tasks[id], ok), id)
  {
  }

  lemma RetryMild(s: Sys, id: nat, ok: bool, now: int)
    requires id in s.tasks && Captured(s, id, s.tasks[id])
    ensures s.tasks[id].RetryNext? ==> Mild(s, OnRetryNext(s, id, s.tasks[id], now), id)
    ensures s.tasks[id].RetryRevoking? ==> Mild(s, OnRetryRevoked(s, id, s.tasks[id], ok, now), id)
  {
  }

  lemma PolledMild(s: Sys, id: nat, generation: nat, reply: Reply)
    requires reply.Rows? || reply.QueryFailed?
    ensures Mild(s, OnPolled(s, id, generation, reply), id)
  {
  }

  lemma RowMild(cfg: Config, s: Sys, id: nat, rows: seq<(string, nat)>, env: Env)
    requires Closed(s.t)
    ensures OnRow(cfg, s, id, rows, env).ready == s.ready
    ensures rows == [] || rows[0].0 !in s.t.active || rows[0].1 < cfg.maxBytesPerSession ==>
              Mild(s, OnRow(cfg, s, id, rows, env), id) || id == s.nextId
  {
  }

  lemma SweepMild(s: Sys, id: nat, ok: bool, now: int)
    requires id in s.tasks && Captured(s, id, s.tasks[id])
    ensures s.tasks[id].SweepNext? ==> Mild(s, OnSweepNext(s, id, s.tasks[id].cids), id)
    ensures s.tasks[id].SweepRevoking? ==> Mild(s, OnSweepRevoked(s, id, s.tasks[id], ok, now), id)
    ensures s.tasks[id].AbuseRevoking? ==> Mild(s, OnAbuseRevoked(s, id, s.tasks[id], ok, now), id)
  {
  }

  predicate Rows(task: Task) {
    task.ApplyingRows? || task.AbuseFlushing?
  }

  lemma ResumeMild(cfg: Config, s: Sys, id: nat, reply: Reply, env: Env)
    requires WellFormed(s) && id in s.tasks && Awaits(s.tasks[id], reply)
    requires !s.tasks[id].Totalling? && !Rows(s.tasks[id])
    ensures Mild(s, OnResume(cfg, s, id, reply, env), id)
  {
    assert Captured(s, id, s.tasks[id]);
    match s.tasks[id]
    case Issuing(_, _, _) => IssuedMild(cfg, s, id, reply.ProviderOk?);
    case RetryNext(_, _) => RetryMild(s, id, true, env.now);
    case RetryRevoking(_, _, _, _) => RetryMild(s, id, reply.ok, env.now);
    case Polling(generation) => PolledMild(s, id, generation, reply);
    case SweepNext(_) => SweepMild(s, id, true, env.now);
    case SweepRevoking(_, _, _) => SweepMild(s, id, reply.ok, env.now);
    case AbuseRevoking(_, _, _) => SweepMild(s, id, reply.ok, env.now);
    case _ =>
  }

  lemma RowsReady(cfg: Config, s: Sys, id: nat, reply: Reply, env: Env)
    requires WellFormed(s) && id in s.tasks && Awaits(s.tasks[id], reply) && Rows(s.tasks[id])
    ensures OnResume(cfg, s, id, reply, env).ready == s.ready
  {
    if s.tasks[id].ApplyingRows? {
      RowMild(cfg, s, id, s.tasks[id].rows, env);
    }
  }

  lemma TotalReady(cfg: Config, s: Sys, id: nat, reply: Reply, env: Env)
    requires WellFormed(s) && id in s.tasks && Awaits(s.tasks[id], reply) && s.tasks[id].Totalling? && s.ready
    ensures OnResume(cfg, s, id, reply, env).ready
  {
  }

  lemma StartReady(cfg: Config, s: Sys, cid: string, ip: string, principal: string, env: Env)
    requires Closed(s.t)
    ensures StartFresh(cfg, s, cid, ip, principal, env).ready == s.ready
  {
  }

  lemma RequestReady(cfg: Config, s: Sys, cid: string, ip: string, principal: string, env: Env)
    requires WellFormed(s)
    ensures OnRequest(cfg, s, cid, ip, principal, env).ready == s.ready
  {
    var swept := WithTurn(s, Housekeep(s.t, env.month, env.cids, env.now));
    StartReady(cfg, swept, cid, ip, RequestPrincipal(cid, principal), env);
  }

  lemma ReadyStays(cfg: Config, s: Sys, e: Event, env: Env)
    requires s.ready
    ensures Step(cfg, s, e, env).ready
  {
    if WellFormed(s) && Enabled(s, e) {
      match e
      case Request(cid, ip, principal) => RequestReady(cfg, s, cid, ip, principal, env);
      case Resume(id, reply) =>
        if s.tasks[id].Totalling? {
          TotalReady(cfg, s, id, reply, env);
        } else if Rows(s.tasks[id]) {
          RowsReady(cfg, s, id, reply, env);
        } else {
          ResumeMild(cfg, s, id, reply, env);
        }
      case _ =>
    }
  }

  /** In a step that condemns nothing, a task is in the abuse path because it was, and revokes because its
  flush answered that it succeeded. */
  ghost predicate AbuseComesFrom(s: Sys, e: Event, i: nat, task: Task) {
    || (i in s.tasks && s.tasks[i] == task)
    || (&& e == Resume(i, Flush(true)) && i in s.tasks && s.tasks[i].AbuseFlushing? && task.AbuseRevoking?
        && s.tasks[i].cid == task.cid && s.tasks[i].ref == task.ref)
  }

  lemma SwitchNoAbuse(cfg: Config, ended: Sys, id: nat, cids: seq<string>, now: int)
    requires Closed(ended.t) && id !in ended.tasks
    ensures var r := KillSwitch(cfg, ended, cids, now); !(id in r.tasks && Abuse(r.tasks[id]))
  {
    KillSwitchShape(cfg, ended, cids, now);
  }

  lemma TotalNoAbuse(cfg: Config, s: Sys, id: nat, reply: Reply, env: Env)
    requires Closed(s.t) && id in s.tasks && s.tasks[id].Totalling?
    ensures var r := OnTotal(cfg, s, id, s.tasks[id], reply, env);
            (reply.MonthTotal? || reply.QueryFailed?) ==> !(id in r.tasks && Abuse(r.tasks[id]))
  {
    var task := s.tasks[id];
    if task.generation == s.globalGeneration && reply.MonthTotal? {
      var t := Expire(s.t, env.cids, env.now);
      var ended := TurnMachine.End(s, id).(globalBusy := s.globalBusy && !task.timed);
      var applied := WithTurn(ended, AppliedTotal(cfg, t, reply.total, reply.truncated, ActivePessimistic(t), env.now));
      SwitchNoAbuse(cfg, applied.(ready := applied.ready || !reply.truncated), id, env.sweepCids, env.now);
    }
  }

  lemma FlushedAbuse(cfg: Config, s: Sys, id: nat, reply: Reply, env: Env)
    requires WellFormed(s) && id in s.tasks && Awaits(s.tasks[id], reply) && s.tasks[id].AbuseFlushing?
    ensures var r := OnResume(cfg, s, id, reply, env);
            id in r.tasks && Abuse(r.tasks[id]) ==>
              r.tasks[id].AbuseRevoking? && r.tasks[id].cid == s.tasks[id].cid && r.tasks[id].ref == s.tasks[id].ref
              && reply == Flush(true)
  {
  }

  lemma RowAbuse(cfg: Config, s: Sys, id: nat, reply: Reply, env: Env)
    requires WellFormed(s) && id in s.tasks && Awaits(s.tasks[id], reply) && s.tasks[id].ApplyingRows?
    requires !Condemns(cfg, s, Resume(id, reply), env)
    ensures var r := OnResume(cfg, s, id, reply, env); !(id in r.tasks && Abuse(r.tasks[id]))
  {
    RowMild(cfg, s, id, s.tasks[id].rows, env);
  }

  lemma ResumedAbuse(cfg: Config, s: Sys, id: nat, reply: Reply, env: Env)
    requires WellFormed(s) && id in s.tasks && Awaits(s.tasks[id], reply) && !Condemns(cfg, s, Resume(id, reply), env)
    requires id in OnResume(cfg, s, id, reply, env).tasks && Abuse(OnResume(cfg, s, id, reply, env).tasks[id])
    ensures AbuseComesFrom(s, Resume(id, reply), id, OnResume(cfg, s, id, reply, env).tasks[id])
  {
    if s.tasks[id].AbuseFlushing? {
      FlushedAbuse(cfg, s, id, reply, env);
    } else if s.tasks[id].ApplyingRows? {
      RowAbuse(cfg, s, id, reply, env);
    } else if s.tasks[id].Totalling? {
      TotalNoAbuse(cfg, s, id, reply, env);
    } else {
      ResumeMild(cfg, s, id, reply, env);
    }
  }

  // A step of another task leaves this one, or starts a sweep.
  lemma OtherAbuse(cfg: Config, s: Sys, id: nat, reply: Reply, env: Env, i: nat)
    requires WellFormed(s) && id in s.tasks && Awaits(s.tasks[id], reply) && i != id
    requires i in OnResume(cfg, s, id, reply, env).tasks && Abuse(OnResume(cfg, s, id, reply, env).tasks[i])
    ensures i in s.tasks && s.tasks[i] == OnResume(cfg, s, id, reply, env).tasks[i]
  {
    if !s.tasks[id].Returning? {
      ResumeMoves(cfg, s, id, reply, env);
    }
  }

  lemma RequestAbuse(cfg: Config, s: Sys, cid: string, ip: string, principal: string, env: Env, i: nat)
    requires WellFormed(s) && i in OnRequest(cfg, s, cid, ip, principal, env).tasks
    requires Abuse(OnRequest(cfg, s, cid, ip, principal, env).tasks[i])
    ensures i in s.tasks && s.tasks[i] == OnRequest(cfg, s, cid, ip, principal, env).tasks[i]
  {
    RequestOpens(cfg, s, cid, ip, principal, env);
  }

  lemma TimerAbuse(cfg: Config, s: Sys, e: Event, env: Env, i: nat)
    requires WellFormed(s) && Enabled(s, e) && !e.Request? && !e.Resume?
    requires i in Apply(cfg, s, e, env).tasks && Abuse(Apply(cfg, s, e, env).tasks[i])
    ensures i in s.tasks && s.tasks[i] == Apply(cfg, s, e, env).tasks[i]
  {
  }

  lemma AbuseOrigin(cfg: Config, s: Sys, e: Event, env: Env, i: nat)
    requires Healthy(s) && Enabled(s, e) && !Condemns(cfg, s, e, env)
    requires i in Step(cfg, s, e, env).tasks && Abuse(Step(cfg, s, e, env).tasks[i])
    ensures AbuseComesFrom(s, e, i, Step(cfg, s, e, env).tasks[i])
  {
    match e
    case Request(cid, ip, principal) => RequestAbuse(cfg, s, cid, ip, principal, env, i);
    case Resume(id, reply) =>
      if i == id {
        ResumedAbuse(cfg, s, id, reply, env);
      } else {
        OtherAbuse(cfg, s, id, reply, env, i);
      }
    case _ => TimerAbuse(cfg, s, e, env, i);
  }

  lemma ActVouches(cfg: Config, w: World, d: Deed)
    requires Healthy(w.sys) && AllVouched(w) && d.Act? && Allowed(w, d) && !Condemns(cfg, w.sys, d.event, d.env)
    ensures AllVouched(Next(cfg, w, d))
  {
    var r := Next(cfg, w, d);
    forall i | i in r.sys.tasks ensures Vouched(r.store, r.marks, i, r.sys.tasks[i]) {
      if Abuse(r.sys.tasks[i]) {
        AbuseOrigin(cfg, w.sys, d.event, d.env, i);
        assert Vouched(w.store, w.marks, i, w.sys.tasks[i]);
      }
    }
  }

  lemma ActProtects(cfg: Config, w: World, d: Deed)
    requires Based(w) && d.Act? && Allowed(w, d) && Protected(cfg, w, d.env.now)
    ensures var sys := Step(cfg, w.sys, d.event, d.env);
            Protected(cfg, World(sys, Remember(w.store, w.sys, sys, d.dirtied), w.marks), d.env.now)
  {
    var sys := Step(cfg, w.sys, d.event, d.env);
    forall id | id in w.marks
      ensures FC.Protects(Remember(w.store, w.sys, sys, d.dirtied), w.marks[id].flush,
              HeldNow(cfg, w.marks[id], d.env.now))
    {
      var k := w.marks[id];
      assert HeldNow(cfg, k, d.env.now)(w.store.memory);
      StepKeepsHeld(cfg, w.sys, d.event, d.env, k);
      TouchProtects(w.store, k.flush, HeldNow(cfg, k, d.env.now), sys.t, w.store.dirty || d.dirtied);
    }
  }

  lemma ActBased(cfg: Config, w: World, d: Deed)
    requires Based(w) && d.Act? && Allowed(w, d)
    ensures var sys := Step(cfg, w.sys, d.event, d.env);
            Based(World(sys, Remember(w.store, w.sys, sys, d.dirtied), w.marks))
  {
    var sys := Step(cfg, w.sys, d.event, d.env);
    StepHealthy(cfg, w.sys, d.event, d.env);
    StepKeepsKeyed(cfg, w.sys, d.event, d.env);
    RememberBased(cfg, w, d, sys);
  }

  lemma StepKeepsKeyed(cfg: Config, s: Sys, e: Event, env: Env)
    requires WellFormed(s) && Keyed(s.t)
    ensures Keyed(Step(cfg, s, e, env).t)
  {
    var at := AtStep(cfg, s, e, env);
    forall t, op | Keyed(t) && May(cfg, t, op, at) ensures Keyed(Do(cfg, t, op, at)) {
      OpKeepsKeyed(cfg, t, op, at);
    }
    StepKeeps(cfg, s, e, env, Keyed);
  }

  lemma RememberBased(cfg: Config, w: World, d: Deed, sys: Sys)
    requires Based(w) && d.Act? && sys == Step(cfg, w.sys, d.event, d.env) && Healthy(sys) && Keyed(sys.t)
    ensures Based(World(sys, Remember(w.store, w.sys, sys, d.dirtied), w.marks))
  {
    if w.sys.ready {
      ReadyStays(cfg, w.sys, d.event, d.env);
    } else {
      NothingActiveStays(cfg, w.sys, d.event, d.env);
    }
  }

  /** A condemning step happens only when the state is loaded, so its strict flush is queued. */
  lemma CondemnIsHeld(cfg: Config, s: Sys, e: Event, env: Env, flush: nat)
    requires Healthy(s) && Keyed(s.t) && Condemns(cfg, s, e, env) && cfg.banMs > 0
    ensures var (cid, ref) := (s.tasks[e.id].rows[0].0, s.t.active[s.tasks[e.id].rows[0].0]);
            var after := Step(cfg, s, e, env);
            ref in after.t.creds && Held(cfg, after.t, MarkOf(cfg, after.t, cid, ref, env.now, flush), env.now)
  {
    var (cid, actual) := s.tasks[e.id].rows[0];
    var corrected := Correct(s.t, cid, actual);
    CondemnedKept(cfg, s, e, env);
    CorrectKeepsKeys(s.t, cid, actual);
    CondemnHolds(cfg, corrected, cid, actual, env.now, flush);
  }

  lemma CorrectKeepsKeys(t: Turn, cid: string, actual: nat)
    requires Keyed(t) && cid in t.active
    ensures var r := Correct(t, cid, actual);
            Keyed(r) && r.active == t.active && r.creds[t.active[cid]].cfActual == actual
  {
  }

  // What the condemning step makes of the world, besides the machine's own step.
  lemma CondemnNext(cfg: Config, w: World, d: Deed)
    requires d.Act? && Allowed(w, d) && Condemns(cfg, w.sys, d.event, d.env)
    ensures var sys := Step(cfg, w.sys, d.event, d.env);
            var store := Remember(w.store, w.sys, sys, d.dirtied);
            var (cid, ref) := (w.sys.tasks[d.event.id].rows[0].0, w.sys.t.active[w.sys.tasks[d.event.id].rows[0].0]);
            && ref in sys.t.creds && store.flushes == w.store.flushes
            && sys.tasks == w.sys.tasks[d.event.id := AbuseFlushing(cid, ref, w.sys.tasks[d.event.id].rows[1..])]
            && Next(cfg, w, d) == World(sys, FC.Request(store, true),
                                        w.marks[d.event.id := MarkOf(cfg, sys.t, cid, ref, d.env.now, |store.flushes|)])
  {
    CondemnedKept(cfg, w.sys, d.event, d.env);
  }

  lemma CondemnStep(cfg: Config, w: World, d: Deed)
    requires Based(w) && AllVouched(w) && d.Act? && Allowed(w, d) && Protected(cfg, w, d.env.now)
    requires Condemns(cfg, w.sys, d.event, d.env) && cfg.banMs > 0
    ensures Based(Next(cfg, w, d)) && Protected(cfg, Next(cfg, w, d), d.env.now) && AllVouched(Next(cfg, w, d))
  {
    var sys := Step(cfg, w.sys, d.event, d.env);
    var mid := World(sys, Remember(w.store, w.sys, sys, d.dirtied), w.marks);
    ActBased(cfg, w, d);
    ActProtects(cfg, w, d);
    CondemnNext(cfg, w, d);
    CondemnIsReady(cfg, w, d);
    CondemnIsHeld(cfg, w.sys, d.event, d.env, |mid.store.flushes|);
    CondemnFlushes(cfg, w, mid, Next(cfg, w, d), d.event.id, d.env.now);
  }

  lemma CondemnIsReady(cfg: Config, w: World, d: Deed)
    requires Based(w) && d.Act? && Condemns(cfg, w.sys, d.event, d.env)
    ensures Step(cfg, w.sys, d.event, d.env).ready
  {
    CondemnedKept(cfg, w.sys, d.event, d.env);
  }

  lemma CondemnFlushes(cfg: Config, w: World, mid: World, r: World, id: nat, now: int)
    requires Based(mid) && Protected(cfg, mid, now) && AllVouched(w) && mid.sys.ready
    requires id in w.sys.tasks && id in r.marks && id in mid.sys.tasks && mid.sys.tasks[id].AbuseFlushing?
    requires mid.sys.tasks == w.sys.tasks[id := mid.sys.tasks[id]]
    requires mid.marks == w.marks && mid.store.flushes == w.store.flushes
    requires r.sys == mid.sys && r.store == FC.Request(mid.store, true) && r.marks == mid.marks[id := r.marks[id]]
    requires r.marks[id].flush == |mid.store.flushes| && Held(cfg, mid.sys.t, r.marks[id], now)
    requires r.marks[id].ref == mid.sys.tasks[id].ref && r.marks[id].cid == mid.sys.tasks[id].cid
    ensures Based(r) && Protected(cfg, r, now) && AllVouched(r)
  {
    CondemnProtects(cfg, mid, r, id, now);
    CondemnVouches(cfg, w, mid, r, id);
  }

  lemma CondemnProtects(cfg: Config, mid: World, r: World, id: nat, now: int)
    requires Based(mid) && Protected(cfg, mid, now) && mid.store.load.Loaded? && FC.Answer(mid.store, true).Own?
    requires r.sys == mid.sys && r.store == FC.Request(mid.store, true)
    requires id in r.marks && r.marks == mid.marks[id := r.marks[id]]
    requires r.marks[id].flush == |mid.store.flushes| && Held(cfg, mid.sys.t, r.marks[id], now)
    ensures Based(r) && Protected(cfg, r, now)
  {
    FC.StepKeepsChain(mid.store, FC.Event.Ask(true));
    forall i | i in r.marks ensures FC.Protects(r.store, r.marks[i].flush, HeldNow(cfg, r.marks[i], now)) {
      if i == id {
        FC.StrictFlushProtects(mid.store, HeldNow(cfg, r.marks[id], now));
      } else {
        FC.StepKeepsProtection(mid.store, FC.Event.Ask(true), mid.marks[i].flush, HeldNow(cfg, mid.marks[i], now));
      }
    }
  }

  lemma CondemnVouches(cfg: Config, w: World, mid: World, r: World, id: nat)
    requires AllVouched(w) && id in w.sys.tasks && id in r.marks
    requires id in mid.sys.tasks && mid.sys.tasks[id].AbuseFlushing?
    requires mid.sys.tasks == w.sys.tasks[id := mid.sys.tasks[id]]
    requires mid.marks == w.marks && mid.store.flushes == w.store.flushes
    requires r.sys == mid.sys && r.store == FC.Request(mid.store, true) && r.marks == mid.marks[id := r.marks[id]]
    requires FC.Answer(mid.store, true).Own? && r.marks[id].flush == |mid.store.flushes|
    requires r.marks[id].ref == mid.sys.tasks[id].ref && r.marks[id].cid == mid.sys.tasks[id].cid
    ensures AllVouched(r)
  {
    forall i | i in r.sys.tasks ensures Vouched(r.store, r.marks, i, r.sys.tasks[i]) {
      if i != id {
        assert Vouched(w.store, w.marks, i, w.sys.tasks[i]);
      }
    }
  }

  // ----- every history -----

  lemma {:induction false} HistoryProtects(cfg: Config, h: History)
    requires Happens(cfg, h) && cfg.banMs > 0
    ensures Based(Replay(cfg, h)) && Protected(cfg, Replay(cfg, h), Clock(h)) && AllVouched(Replay(cfg, h))
  {
    match h
    case Woken(w, at) => AwakeHealthy(w, at);
    case Then(before, d) =>
      HistoryProtects(cfg, before);
      ProtectedLater(cfg, Replay(cfg, before), Clock(before), Clock(h));
      DeedProtects(cfg, Replay(cfg, before), d, Clock(h));
  }

  lemma DeedProtects(cfg: Config, w: World, d: Deed, now: int)
    requires Based(w) && Protected(cfg, w, now) && AllVouched(w) && Allowed(w, d) && cfg.banMs > 0
    requires d.Act? ==> d.env.now == now
    ensures Based(Next(cfg, w, d)) && Protected(cfg, Next(cfg, w, d), now) && AllVouched(Next(cfg, w, d))
  {
    if !d.Act? {
      FileStepBased(cfg, w, d);
      FileStepProtects(cfg, w, d, now);
      FileStepVouches(cfg, w, d);
    } else if Condemns(cfg, w.sys, d.event, d.env) {
      CondemnStep(cfg, w, d);
    } else {
      ActBased(cfg, w, d);
      ActProtects(cfg, w, d);
      ActVouches(cfg, w, d);
    }
  }

  lemma AwakeHealthy(w: World, at: int)
    requires Awake(w, at)
    ensures Based(w) && AllVouched(w)
  {
  }

  /** Whenever the external revoke of the abuse path is called, whatever other flushes and tasks ran in
  between, the file already holds the denial, the ledger rows and the pending revocation. */
  lemma RevokeOnlyAfterItIsOnDisk(cfg: Config, h: History, id: nat)
    requires Happens(cfg, h) && cfg.banMs > 0
    requires id in Replay(cfg, h).sys.tasks && Replay(cfg, h).sys.tasks[id].AbuseRevoking?
    ensures var w := Replay(cfg, h);
            && id in w.marks && w.marks[id].ref == w.sys.tasks[id].ref && w.marks[id].cid == w.sys.tasks[id].cid
            && w.store.disk.Holding? && Held(cfg, w.store.disk.value, w.marks[id], Clock(h))
  {
    HistoryProtects(cfg, h);
    var w := Replay(cfg, h);
    assert Vouched(w.store, w.marks, id, w.sys.tasks[id]);
    assert FC.Protects(w.store, w.marks[id].flush, HeldNow(cfg, w.marks[id], Clock(h)));
  }

  // ----- after a crash -----

  lemma {:induction false} DenialOutlivesRuns(cfg: Config, t: Trace, key: DenyKey, until: int)
    requires Possible(cfg, t) && KeyHeld(cfg, First(t).s.t, key, until, First(t).at)
    ensures KeyHeld(cfg, Run(cfg, t).t, key, until, Now(t))
  {
    if t.After? {
      assert First(t) == First(t.before);
      DenialOutlivesRuns(cfg, t.before, key, until);
      RunHealthy(cfg, t.before);
      var s := Run(cfg, t.before);
      var at := AtStep(cfg, s, t.event, t.env);
      forall x, op | KeyHeld(cfg, x, key, until, at.now) && May(cfg, x, op, at)
        ensures KeyHeld(cfg, Do(cfg, x, op, at), key, until, at.now)
      {
        OpKeepsKey(cfg, x, op, at, key, until);
      }
      StepKeeps(cfg, s, t.event, t.env, x => KeyHeld(cfg, x, key, until, t.env.now));
    }
  }

  function First(t: Trace): (b: Trace)
    ensures b.Booted?
  {
    match t
    case Booted(_, _) => t
    case After(before, _, _) => First(before)
  }

  predicate Refused(gate: Gate) {
    gate.Exceeded? || gate.BannedIp? || gate.BannedSession?
  }

  /** The requests a denial covers. */
  predicate Covers(key: DenyKey, cid: string, ip: string, principal: string) {
    key == IpKey(ip) || key == PrincipalKey(RequestPrincipal(cid, principal)) || key == CidKey(cid)
  }

  /** Until the ban runs out every request the denial covers is refused, and nothing is issued for it. */
  ghost predicate Barred(cfg: Config, s: Sys, key: DenyKey, until: int, env: Env)
    requires Closed(s.t)
  {
    forall cid, ip, principal {:trigger Starts(cfg, s, cid, ip, principal, env)} ::
      env.now < until && Covers(key, cid, ip, principal) ==>
        && Refused(GateOf(cfg, Housekeep(s.t, env.month, env.cids, env.now), cid, ip, RequestPrincipal(cid, principal),
           env.now))
        && !Starts(cfg, s, cid, ip, principal, env)
  }

  lemma HousekeepKeepsDenial(cfg: Config, t: Turn, env: Env, key: DenyKey, until: int)
    requires Closed(t) && KeyHeld(cfg, t, key, until, env.now)
    ensures KeyHeld(cfg, Housekeep(t, env.month, env.cids, env.now), key, until, env.now)
  {
    var at := At(env.now, -1, -1, true, false);
    forall x, op | KeyHeld(cfg, x, key, until, at.now) && May(cfg, x, op, at)
      ensures KeyHeld(cfg, Do(cfg, x, op, at), key, until, at.now)
    {
      OpKeepsKey(cfg, x, op, at, key, until);
    }
    HousekeepKeeps(cfg, t, env.month, env.cids, at, x => KeyHeld(cfg, x, key, until, env.now));
  }

  lemma HeldRefuses(cfg: Config, t: Turn, key: DenyKey, until: int, now: int, cid: string, ip: string,
      principal: string)
    requires KeyHeld(cfg, t, key, until, now) && now < until && Covers(key, cid, ip, principal)
    ensures Refused(GateOf(cfg, t, cid, ip, RequestPrincipal(cid, principal), now))
  {
  }

  lemma HeldBars(cfg: Config, s: Sys, key: DenyKey, until: int, env: Env)
    requires Closed(s.t) && KeyHeld(cfg, s.t, key, until, env.now)
    ensures Barred(cfg, s, key, until, env)
  {
    HousekeepKeepsDenial(cfg, s.t, env, key, until);
    var kept := Housekeep(s.t, env.month, env.cids, env.now);
    forall cid, ip, principal | env.now < until && Covers(key, cid, ip, principal)
      ensures Refused(GateOf(cfg, kept, cid, ip, RequestPrincipal(cid, principal), env.now))
      ensures !Starts(cfg, s, cid, ip, principal, env)
    {
      HeldRefuses(cfg, kept, key, until, env.now, cid, ip, principal);
    }
  }

  /** A denial that holds at the start of a run bars what it covers throughout. */
  lemma DenialBars(cfg: Config, key: DenyKey, until: int, t: Trace, env: Env)
    requires Possible(cfg, t) && Now(t) <= env.now && KeyHeld(cfg, First(t).s.t, key, until, First(t).at)
    ensures Closed(Run(cfg, t).t) && Barred(cfg, Run(cfg, t), key, until, env)
  {
    RunHealthy(cfg, t);
    DenialOutlivesRuns(cfg, t, key, until);
    HeldBars(cfg, Run(cfg, t), key, until, env);
  }
}
