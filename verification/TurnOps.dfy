/** The atomic steps of the TURN machine, taken apart into primitive operations. Whatever every
operation keeps, every step keeps, and so does every run. */
module TurnOps {

  import opened TurnState
  import opened TurnMachine

  datatype Op =
    | Volatile(cache: map<string, Cached>, inFlight: map<string, nat>)
    | Note(error: ErrorCode, truncated: bool)
    | Roll(month: int)
    | PruneRows
    | PruneDenials
    | PruneIssues
    | SettleOp(ref: Ref, observed: nat)
    | RemoveOp(cid: string, why: Reason)
    | PendingOp(ref: Ref)
    | AttemptOp(ref: Ref, at: int)
    | TripOp
    | ReserveOp(cid: string, ip: string, principal: string, ref: Ref)
    | GrantOp(cid: string, ref: Ref, expiresAt: int)
    | RollbackOp(cid: string, ref: Ref)
    | CorrectOp(cid: string, actual: nat)
    | DenyOp(principal: string, ip: string, cid: string)
    | LowerBoundOp(total: nat)
    | SyncOp(total: nat, activePessimistic: int)

  /** When a step happens, the identity it gives a new credential and the reservation whose provider
  call it answers, each negative if there is none, and whether it may roll the month or apply a
  complete monthly total. */
  datatype At = At(now: int, newRef: int, answered: int, rolls: bool, syncs: bool)

  predicate IsCompleteTotal(s: Sys, e: Event) {
    && e.Resume? && e.id in s.tasks && s.tasks[e.id].Totalling? && s.tasks[e.id].generation == s.globalGeneration
    && e.reply.MonthTotal? && !e.reply.truncated
  }

  ghost function AtStep(cfg: Config, s: Sys, e: Event, env: Env): At
    requires WellFormed(s)
  {
    At(env.now,
       if e.Request? && Starts(cfg, s, e.cid, e.ip, e.principal, env) then s.nextId else -1,
       if e.Resume? && e.id in s.tasks && s.tasks[e.id].Issuing? then e.id else -1,
       !e.Resume?, IsCompleteTotal(s, e))
  }

  ghost predicate NewRef(t: Turn, ref: Ref) {
    && ref !in t.creds
    && (forall k :: 0 <= k < |t.log.booted| ==> t.log.booted[k].ref != ref)
    && (forall k :: 0 <= k < |t.log.issues| ==> t.log.issues[k].ref != ref)
  }

  /** What every step guarantees about the operations it performs. */
  ghost predicate May(cfg: Config, t: Turn, op: Op, at: At) {
    && Closed(t)
    && match op
       case SettleOp(ref, observed) => ref in t.creds && observed <= t.creds[ref].cfActual
       case RemoveOp(cid, why) => why.Expired? || why.Revoked?
       case PendingOp(ref) => ref in t.creds
       case AttemptOp(ref, _) => ref in t.creds
       case ReserveOp(cid, ip, principal, ref) =>
         && ref == at.newRef && NewRef(t, ref)
         && !t.usage.killActive
         && !Denied(t, IpKey(ip), at.now) && !Denied(t, PrincipalKey(principal), at.now)
         && !Denied(t, CidKey(cid), at.now)
         && WithinIpCaps(cfg, t, ip, at.now)
       case GrantOp(_, ref, _) => ref == at.answered && ref in t.log.open
       case RollbackOp(_, ref) => ref == at.answered && ref in t.log.open
       case CorrectOp(cid, _) => cid in t.active
       case Roll(_) => at.rolls
       case SyncOp(_, activePessimistic) => at.syncs && activePessimistic == ActivePessimistic(t)
       case _ => true
  }

  ghost function Do(cfg: Config, t: Turn, op: Op, at: At): Turn
    requires May(cfg, t, op, at)
  {
    match op
    case Volatile(cache, inFlight) => t.(cache := cache, inFlight := inFlight)
    case Note(error, truncated) => t.(usage := t.usage.(error := error, truncated := truncated))
    case Roll(month) => RollMonth(t, month)
    case PruneRows => PruneLedger(t, at.now)
    case PruneDenials => PruneDenyList(t, at.now)
    case PruneIssues => PruneHistory(t, at.now)
    case SettleOp(ref, observed) => Settle(t, ref, observed, at.now)
    case RemoveOp(cid, why) => Remove(t, cid, why)
    case PendingOp(ref) => MarkPending(t, ref, at.now)
    case AttemptOp(ref, when) =>
      t.(creds := t.creds[ref := t.creds[ref].(revokeAttempts := t.creds[ref].revokeAttempts + 1,
        lastAttemptAt := when)])
    case TripOp => Trip(cfg, t, at.now)
    case ReserveOp(cid, ip, principal, ref) => Trip(cfg, Reserve(cfg, t, cid, ip, principal, at.now, ref), at.now)
    case GrantOp(cid, ref, expiresAt) => Grant(t, cid, ref, expiresAt)
    case RollbackOp(cid, ref) => Rollback(t, cid, ref, cfg.reservation)
    case CorrectOp(cid, actual) => Correct(t, cid, actual)
    case DenyOp(principal, ip, cid) => ApplyDeny(cfg, t, principal, ip, cid, at.now)
    case LowerBoundOp(total) => t.(usage := ApplyLowerBound(t.usage, total))
    case SyncOp(total, activePessimistic) => Sync(cfg, t, total, activePessimistic, at.now)
  }

  /** Operations on counters, caches and pruned lists: no credential record, active entry or issuance. */
  predicate Bookkeeping(op: Op) {
    || op.Volatile? || op.Note? || op.Roll? || op.PruneRows? || op.PruneDenials? || op.PruneIssues? || op.TripOp?
    || op.DenyOp? || op.LowerBoundOp? || op.SyncOp?
  }

  /** Same credentials, issuances and ledger log. */
  ghost predicate SameBooks(t: Turn, r: Turn) {
    && r.creds == t.creds && r.active == t.active
    && r.log.booted == t.log.booted && r.log.issues == t.log.issues && r.log.open == t.log.open
    && r.log.written == t.log.written && r.log.gone == t.log.gone
  }

  predicate Pruning(op: Op) {
    op.Volatile? || op.Note? || op.Roll? || op.PruneRows? || op.PruneDenials? || op.PruneIssues?
  }

  predicate Counting(op: Op) {
    op.TripOp? || op.DenyOp? || op.LowerBoundOp? || op.SyncOp?
  }

  /** Operations on one credential record or one active entry. */
  predicate Editing(op: Op) {
    op.SettleOp? || op.RemoveOp? || op.PendingOp? || op.AttemptOp? || op.CorrectOp?
  }

  predicate Answering(op: Op) {
    op.ReserveOp? || op.GrantOp? || op.RollbackOp?
  }

  lemma PruningLeaves(cfg: Config, t: Turn, op: Op, at: At)
    requires May(cfg, t, op, at) && Pruning(op)
    ensures SameBooks(t, Do(cfg, t, op, at))
  {
  }

  lemma BookkeepingLeaves(cfg: Config, t: Turn, op: Op, at: At)
    requires May(cfg, t, op, at) && Bookkeeping(op)
    ensures SameBooks(t, Do(cfg, t, op, at))
  {
    if Pruning(op) {
      PruningLeaves(cfg, t, op, at);
    }
  }

  /** The operations keep `keeps`. */
  ghost predicate Preserved(cfg: Config, at: At, keeps: Turn -> bool) {
    forall t, op {:trigger Do(cfg, t, op, at)} :: keeps(t) && May(cfg, t, op, at) ==> keeps(Do(cfg, t, op, at))
  }

  lemma ExpireOneKeeps(cfg: Config, t: Turn, cid: string, at: At, keeps: Turn -> bool)
    requires Closed(t) && keeps(t) && Preserved(cfg, at, keeps)
    ensures keeps(ExpireOne(t, cid, at.now))
  {
    if cid in t.active && t.creds[t.active[cid]].expiresAt < at.now {
      var settled := Do(cfg, t, SettleOp(t.active[cid], 0), at);
      assert keeps(settled);
      assert keeps(Do(cfg, settled, RemoveOp(cid, Expired), at));
    }
  }

  lemma {:induction false} ExpireKeeps(cfg: Config, t: Turn, cids: seq<string>, at: At, keeps: Turn -> bool)
    requires Closed(t) && keeps(t) && Preserved(cfg, at, keeps)
    ensures keeps(Expire(t, cids, at.now))
  {
    if cids != [] {
      ExpireKeeps(cfg, t, cids[..|cids| - 1], at, keeps);
      ExpireOneKeeps(cfg, Expire(t, cids[..|cids| - 1], at.now), cids[|cids| - 1], at, keeps);
    }
  }

  lemma MarkOneKeeps(cfg: Config, t: Turn, cid: string, at: At, keeps: Turn -> bool)
    requires Closed(t) && keeps(t) && Preserved(cfg, at, keeps)
    ensures keeps(MarkOne(t, cid, at.now))
  {
    if cid in t.active {
      var settled := Do(cfg, t, SettleOp(t.active[cid], 0), at);
      assert keeps(settled);
      assert keeps(Do(cfg, settled, PendingOp(t.active[cid]), at));
    }
  }

  lemma {:induction false} MarkAllKeeps(cfg: Config, t: Turn, cids: seq<string>, at: At, keeps: Turn -> bool)
    requires Closed(t) && keeps(t) && Preserved(cfg, at, keeps)
    ensures keeps(MarkAll(t, cids, at.now))
  {
    if cids != [] {
      MarkAllKeeps(cfg, t, cids[..|cids| - 1], at, keeps);
      MarkOneKeeps(cfg, MarkAll(t, cids[..|cids| - 1], at.now), cids[|cids| - 1], at, keeps);
    }
  }

  lemma TrippedKeeps(cfg: Config, t: Turn, cids: seq<string>, at: At, keeps: Turn -> bool)
    requires Closed(t) && keeps(Trip(cfg, t, at.now)) && Preserved(cfg, at, keeps)
    ensures keeps(EvaluateKillSwitch(cfg, t, cids, at.now))
  {
    MarkAllKeeps(cfg, Trip(cfg, t, at.now), cids, at, keeps);
  }

  lemma KillSwitchKeeps(cfg: Config, t: Turn, cids: seq<string>, at: At, keeps: Turn -> bool)
    requires Closed(t) && keeps(t) && Preserved(cfg, at, keeps)
    ensures keeps(EvaluateKillSwitch(cfg, t, cids, at.now))
  {
    assert keeps(Do(cfg, t, TripOp, at));
    TrippedKeeps(cfg, t, cids, at, keeps);
  }

  lemma HousekeepKeeps(cfg: Config, t: Turn, month: int, cids: seq<string>, at: At, keeps: Turn -> bool)
    requires Closed(t) && keeps(t) && Preserved(cfg, at, keeps)
    requires at.rolls
    ensures keeps(Housekeep(t, month, cids, at.now))
  {
    var rolled := Do(cfg, t, Roll(month), at);
    var pruned := Do(cfg, rolled, PruneIssues, at);
    ExpireKeeps(cfg, pruned, cids, at, keeps);
    var expired := Expire(pruned, cids, at.now);
    assert keeps(Do(cfg, Do(cfg, expired, PruneRows, at), PruneDenials, at));
  }

  lemma OneExpires(t: Turn, cid: string, now: int)
    requires Closed(t)
    ensures Expire(t, [cid], now) == ExpireOne(t, cid, now)
  {
    assert [cid][..0] == [];
  }

  lemma OneIsMarked(t: Turn, cid: string, now: int)
    requires Closed(t)
    ensures MarkAll(t, [cid], now) == MarkOne(t, cid, now)
  {
    assert [cid][..0] == [];
  }

  /** Same records, same issuances. */
  ghost predicate SameRecords(t: Turn, r: Turn) {
    && r.creds.Keys == t.creds.Keys && r.active.Keys <= t.active.Keys
    && r.log.booted == t.log.booted && r.log.issues == t.log.issues && r.log.open == t.log.open
    && r.inFlight == t.inFlight && r.usage == t.usage && r.log.resets == t.log.resets && r.log.clears == t.log.clears
  }

  lemma SettleAddsNothing(t: Turn, ref: Ref, observed: nat, now: int)
    requires ref in t.creds
    ensures SameRecords(t, Settle(t, ref, observed, now))
  {
  }

  lemma {:induction false} ExpireAddsNothing(t: Turn, cids: seq<string>, now: int)
    requires Closed(t)
    ensures SameRecords(t, Expire(t, cids, now))
  {
    if cids != [] {
      var init, cid := cids[..|cids| - 1], cids[|cids| - 1];
      ExpireAddsNothing(t, init, now);
      var before := Expire(t, init, now);
      if cid in before.active {
        SettleAddsNothing(before, before.active[cid], 0, now);
      }
    }
  }

  lemma HousekeepAddsNothing(t: Turn, month: int, cids: seq<string>, now: int)
    requires Closed(t)
    ensures SameRecords(RollMonth(t, month), Housekeep(t, month, cids, now))
  {
    ExpireAddsNothing(PruneHistory(RollMonth(t, month), now), cids, now);
  }

  lemma {:induction false} MarkAllAddsNothing(t: Turn, cids: seq<string>, now: int)
    requires Closed(t)
    ensures SameRecords(t, MarkAll(t, cids, now)) && MarkAll(t, cids, now).active == t.active
  {
    if cids != [] {
      var init, cid := cids[..|cids| - 1], cids[|cids| - 1];
      MarkAllAddsNothing(t, init, now);
      var before := MarkAll(t, init, now);
      if cid in before.active {
        SettleAddsNothing(before, before.active[cid], 0, now);
      }
    }
  }

  /** The request passed every gate and gets a credential of its own. */
  ghost predicate MayReserve(cfg: Config, t: Turn, cid: string, ip: string, principal: string, at: At) {
    && Closed(t) && 0 <= at.newRef && NewRef(t, at.newRef) && !t.usage.killActive
    && !Denied(t, IpKey(ip), at.now) && !Denied(t, PrincipalKey(principal), at.now) && !Denied(t, CidKey(cid), at.now)
  }

  lemma ReservedKeeps(cfg: Config, t: Turn, cid: string, ip: string, principal: string, cids: seq<string>, at: At,
      keeps: Turn -> bool)
    requires MayReserve(cfg, t, cid, ip, principal, at) && WithinIpCaps(cfg, t, ip, at.now)
    requires keeps(t) && Preserved(cfg, at, keeps)
    ensures keeps(EvaluateKillSwitch(cfg, Reserve(cfg, t, cid, ip, principal, at.now, at.newRef), cids, at.now))
  {
    assert keeps(Do(cfg, t, ReserveOp(cid, ip, principal, at.newRef), at));
    TrippedKeeps(cfg, Reserve(cfg, t, cid, ip, principal, at.now, at.newRef), cids, at, keeps);
  }

  lemma StartFreshKeeps(cfg: Config, s: Sys, cid: string, ip: string, principal: string, env: Env, at: At,
      keeps: Turn -> bool)
    requires Closed(s.t) && at.now == env.now
    requires WithinIpCaps(cfg, s.t, ip, at.now)
             ==> at.newRef == s.nextId && MayReserve(cfg, s.t, cid, ip, principal, at)
    requires keeps(s.t) && Preserved(cfg, at, keeps)
    ensures keeps(StartFresh(cfg, s, cid, ip, principal, env).t)
  {
    var started := Do(cfg, s.t, Volatile(s.t.cache - {cid}, s.t.inFlight[cid := s.nextId]), at);
    assert keeps(started);
    if WithinIpCaps(cfg, s.t, ip, env.now) {
      ReservedKeeps(cfg, started, cid, ip, principal, env.sweepCids, at, keeps);
    }
  }

  lemma RequestKeeps(cfg: Config, s: Sys, e: Event, env: Env, keeps: Turn -> bool)
    requires WellFormed(s) && e.Request? && keeps(s.t) && Preserved(cfg, AtStep(cfg, s, e, env), keeps)
    ensures keeps(OnRequest(cfg, s, e.cid, e.ip, e.principal, env).t)
  {
    HousekeepKeeps(cfg, s.t, env.month, env.cids, AtStep(cfg, s, e, env), keeps);
    HousekeepAddsNothing(s.t, env.month, env.cids, env.now);
    var swept := WithTurn(s, Housekeep(s.t, env.month, env.cids, env.now));
    var who := RequestPrincipal(e.cid, e.principal);
    if s.ready && GateOf(cfg, swept.t, e.cid, e.ip, who, env.now).Fresh? {
      StartFreshKeeps(cfg, swept, e.cid, e.ip, who, env, AtStep(cfg, s, e, env), keeps);
    }
  }

  lemma RetryKeeps(cfg: Config, s: Sys, cid: string, ref: Ref, why: Reason, at: At, keeps: Turn -> bool)
    requires WellFormed(s) && ref in s.t.creds && keeps(s.t) && Preserved(cfg, at, keeps)
    requires why.Expired? || why.Revoked?
    ensures keeps(SettleAndRemove(s.t, cid, ref, why, at.now))
  {
    var settled := Do(cfg, s.t, SettleOp(ref, 0), at);
    assert keeps(Do(cfg, settled, RemoveOp(cid, why), at));
  }

  lemma CondemnKeeps(cfg: Config, t: Turn, cid: string, ref: Ref, actual: nat, at: At, keeps: Turn -> bool)
    requires Closed(t) && ref in t.creds && actual <= t.creds[ref].cfActual && keeps(t) && Preserved(cfg, at, keeps)
    ensures keeps(Condemn(cfg, t, cid, ref, actual, at.now))
  {
    var settled := Do(cfg, t, SettleOp(ref, actual), at);
    var c := settled.creds[ref];
    var denied := Do(cfg, settled, DenyOp(PrincipalOf(c, cid), c.ip, cid), at);
    assert keeps(settled) && keeps(denied);
    assert keeps(Do(cfg, denied, PendingOp(ref), at));
  }

  lemma RowKeeps(cfg: Config, s: Sys, id: nat, rows: seq<(string, nat)>, env: Env, at: At, keeps: Turn -> bool)
    requires WellFormed(s) && keeps(s.t) && at.now == env.now && Preserved(cfg, at, keeps)
    ensures keeps(OnRow(cfg, s, id, rows, env).t)
  {
    if rows == [] {
      KillSwitchKeeps(cfg, s.t, env.sweepCids, at, keeps);
    } else if rows[0].0 in s.t.active {
      var (cid, actual) := rows[0];
      var ref := s.t.active[cid];
      var corrected := Do(cfg, s.t, CorrectOp(cid, actual), at);
      if actual >= cfg.maxBytesPerSession {
        CondemnKeeps(cfg, corrected, cid, ref, actual, at, keeps);
      }
    }
  }

  lemma AppliedTotalKeeps(cfg: Config, t: Turn, total: nat, truncated: bool, at: At, keeps: Turn -> bool)
    requires Closed(t) && keeps(t) && Preserved(cfg, at, keeps)
    requires !truncated ==> at.syncs
    ensures keeps(AppliedTotal(cfg, t, total, truncated, ActivePessimistic(t), at.now))
  {
    if truncated {
      assert keeps(Do(cfg, t, LowerBoundOp(total), at));
    } else {
      assert keeps(Do(cfg, t, SyncOp(total, ActivePessimistic(t)), at));
    }
  }

  lemma TotalKeeps(cfg: Config, s: Sys, id: nat, task: Task, reply: Reply, env: Env, at: At, keeps: Turn -> bool)
    requires WellFormed(s) && task.Totalling? && keeps(s.t) && at.now == env.now && Preserved(cfg, at, keeps)
    requires task.generation == s.globalGeneration && reply.MonthTotal? && !reply.truncated ==> at.syncs
    ensures keeps(OnTotal(cfg, s, id, task, reply, env).t)
  {
    if reply.QueryFailed? {
      assert keeps(Do(cfg, s.t, Note(Provider(reply.code), s.t.usage.truncated), at));
    } else if reply.MonthTotal? && task.generation == s.globalGeneration {
      MonthTotalKeeps(cfg, s, id, task, reply, env, at, keeps);
    }
  }

  lemma MonthTotalKeeps(cfg: Config, s: Sys, id: nat, task: Task, reply: Reply, env: Env, at: At, keeps: Turn -> bool)
    requires WellFormed(s) && task.Totalling? && task.generation == s.globalGeneration
    requires reply.MonthTotal? && keeps(s.t) && at.now == env.now && Preserved(cfg, at, keeps)
    requires !reply.truncated ==> at.syncs
    ensures keeps(OnTotal(cfg, s, id, task, reply, env).t)
  {
    ExpireKeeps(cfg, s.t, env.cids, at, keeps);
    var t := Expire(s.t, env.cids, env.now);
    AppliedTotalKeeps(cfg, t, reply.total, reply.truncated, at, keeps);
    KillSwitchKeeps(cfg, AppliedTotal(cfg, t, reply.total, reply.truncated, ActivePessimistic(t), at.now),
      env.sweepCids, at, keeps);
  }

  lemma IssuedKeeps(cfg: Config, s: Sys, id: nat, ok: bool, at: At, keeps: Turn -> bool)
    requires WellFormed(s) && id in s.tasks && s.tasks[id].Issuing? && keeps(s.t) && Preserved(cfg, at, keeps)
    requires at.answered == id
    ensures keeps(OnIssued(cfg, s, id, s.tasks[id], ok).t)
  {
    var task := s.tasks[id];
    assert Captured(s, id, task);
    if ok {
      assert keeps(Do(cfg, s.t, GrantOp(task.cid, task.ref, task.expiresAt), at));
    } else {
      assert keeps(Do(cfg, s.t, RollbackOp(task.cid, task.ref), at));
    }
  }

  lemma RetryStepKeeps(cfg: Config, s: Sys, id: nat, ok: bool, at: At, keeps: Turn -> bool)
    requires WellFormed(s) && id in s.tasks && keeps(s.t) && Preserved(cfg, at, keeps)
    ensures s.tasks[id].RetryNext? ==> keeps(OnRetryNext(s, id, s.tasks[id], at.now).t)
    ensures s.tasks[id].RetryRevoking? ==> keeps(OnRetryRevoked(s, id, s.tasks[id], ok, at.now).t)
  {
    var task := s.tasks[id];
    assert Captured(s, id, task);
    if task.RetryNext? && task.queue != [] {
      RetryKeeps(cfg, s, task.queue[0].0, task.queue[0].1, Expired, at, keeps);
    } else if task.RetryRevoking? && ok {
      RetryKeeps(cfg, s, task.cid, task.ref, Revoked, at, keeps);
    } else if task.RetryRevoking? {
      assert keeps(Do(cfg, s.t, AttemptOp(task.ref, task.startedAt), at));
    }
  }

  lemma PolledKeeps(cfg: Config, s: Sys, id: nat, generation: nat, reply: Reply, at: At, keeps: Turn -> bool)
    requires Closed(s.t) && (reply.Rows? || reply.QueryFailed?) && keeps(s.t) && Preserved(cfg, at, keeps)
    ensures keeps(OnPolled(s, id, generation, reply).t)
  {
    if reply.Rows? {
      var u := SetTruncated(s.t.usage, reply.truncated);
      assert keeps(Do(cfg, s.t, Note(u.error, u.truncated), at));
    } else {
      assert keeps(Do(cfg, s.t, Note(Provider(reply.code), s.t.usage.truncated), at));
    }
  }

  lemma RevokedKeeps(cfg: Config, s: Sys, cid: string, ref: Ref, ok: bool, at: At, keeps: Turn -> bool)
    requires WellFormed(s) && ref in s.t.creds && keeps(s.t) && Preserved(cfg, at, keeps)
    ensures keeps(if ok then Remove(s.t, cid, Revoked) else MarkPending(s.t, ref, at.now))
  {
    if ok {
      assert keeps(Do(cfg, s.t, RemoveOp(cid, Revoked), at));
    } else {
      assert keeps(Do(cfg, s.t, PendingOp(ref), at));
    }
  }

  predicate Asks(task: Task) {
    task.Issuing? || task.Returning? || task.RetryNext? || task.RetryRevoking? || task.Polling?
  }

  lemma ResumeAskKeeps(cfg: Config, s: Sys, id: nat, reply: Reply, env: Env, at: At, keeps: Turn -> bool)
    requires WellFormed(s) && id in s.tasks && Awaits(s.tasks[id], reply)
    requires keeps(s.t) && at.now == env.now && Preserved(cfg, at, keeps)
    requires Asks(s.tasks[id])
    requires s.tasks[id].Issuing? ==> at.answered == id
    ensures keeps(OnResume(cfg, s, id, reply, env).t)
  {
    match s.tasks[id]
    case Issuing(_, _, _) => IssuedKeeps(cfg, s, id, reply.ProviderOk?, at, keeps);
    case Returning(cid) => assert keeps(Do(cfg, s.t, Volatile(s.t.cache, s.t.inFlight - {cid}), at));
    case RetryNext(_, _) => RetryStepKeeps(cfg, s, id, true, at, keeps);
    case RetryRevoking(_, _, _, _) => RetryStepKeeps(cfg, s, id, reply.ok, at, keeps);
    case Polling(generation) => PolledKeeps(cfg, s, id, generation, reply, at, keeps);
  }

  lemma ResumeOtherKeeps(cfg: Config, s: Sys, id: nat, reply: Reply, env: Env, at: At, keeps: Turn -> bool)
    requires WellFormed(s) && id in s.tasks && Awaits(s.tasks[id], reply)
    requires keeps(s.t) && at.now == env.now && Preserved(cfg, at, keeps)
    requires !Asks(s.tasks[id])
    requires IsCompleteTotal(s, Resume(id, reply)) ==> at.syncs
    ensures keeps(OnResume(cfg, s, id, reply, env).t)
  {
    match s.tasks[id]
    case ApplyingRows(rows) => RowKeeps(cfg, s, id, rows, env, at, keeps);
    case AbuseRevoking(cid, ref, _) => RevokedKeeps(cfg, s, cid, ref, reply.ok, at, keeps);
    case Totalling(_, _) => TotalKeeps(cfg, s, id, s.tasks[id], reply, env, at, keeps);
    case SweepRevoking(cid, ref, _) => RevokedKeeps(cfg, s, cid, ref, reply.ok, at, keeps);
    case _ =>
  }

  lemma ResumeKeeps(cfg: Config, s: Sys, id: nat, reply: Reply, env: Env, at: At, keeps: Turn -> bool)
    requires WellFormed(s) && id in s.tasks && Awaits(s.tasks[id], reply)
    requires keeps(s.t) && at.now == env.now && Preserved(cfg, at, keeps)
    requires s.tasks[id].Issuing? ==> at.answered == id
    requires IsCompleteTotal(s, Resume(id, reply)) ==> at.syncs
    ensures keeps(OnResume(cfg, s, id, reply, env).t)
  {
    if Asks(s.tasks[id]) {
      ResumeAskKeeps(cfg, s, id, reply, env, at, keeps);
    } else {
      ResumeOtherKeeps(cfg, s, id, reply, env, at, keeps);
    }
  }

  /** Whatever the operations keep, every atomic step keeps. */
  lemma StepKeeps(cfg: Config, s: Sys, e: Event, env: Env, keeps: Turn -> bool)
    requires WellFormed(s) && keeps(s.t) && Preserved(cfg, AtStep(cfg, s, e, env), keeps)
    ensures keeps(Step(cfg, s, e, env).t)
  {
    if Enabled(s, e) {
      match e
      case Request(_, _, _) => RequestKeeps(cfg, s, e, env, keeps);
      case Resume(id, reply) => ResumeKeeps(cfg, s, id, reply, env, AtStep(cfg, s, e, env), keeps);
      case _ => assert keeps(Do(cfg, s.t, Roll(env.month), AtStep(cfg, s, e, env)));
    }
  }
}
