/** Whole runs of the TURN machine: what a suspended task captured stays valid, and one identifier
never has two issuances in flight. */
module TurnRuns {

  import opened Common
  import opened TurnState
  import opened TurnMachine
  import opened TurnOps

  // ----- records -----

  lemma {:induction false} WithoutIssueDrops(history: seq<Issue>, ref: Ref)
    ensures forall i :: i in WithoutIssue(history, ref) <==> i in history && i.ref != ref
  {
    if history != [] {
      WithoutIssueDrops(history[..|history| - 1], ref);
      assert history == history[..|history| - 1] + [history[|history| - 1]];
    }
  }

  /** How far one step may change the tables: it adds at most its own record and issuance, and closes
  at most the reservation it was answered for. */
  ghost predicate Carries(t0: Turn, at: At, t: Turn) {
    && Closed(t)
    && (forall ref :: ref in t0.creds ==> ref in t.creds)
    && (forall ref :: ref in t.creds ==> ref in t0.creds || ref == at.newRef)
    && (forall ref :: ref in t0.log.open && ref != at.answered ==> ref in t.log.open)
    && (forall ref :: ref in t.log.open ==> ref in t0.log.open || ref == at.newRef)
    && (forall i :: i in t.log.issues ==> i in t0.log.issues || i.ref == at.newRef)
    && t.log.booted == t0.log.booted
  }

  lemma OpCarries(cfg: Config, t0: Turn, at: At, t: Turn, op: Op)
    requires Carries(t0, at, t) && May(cfg, t, op, at)
    ensures Carries(t0, at, Do(cfg, t, op, at))
  {
    if Bookkeeping(op) {
      BookkeepingLeaves(cfg, t, op, at);
    } else if op.ReserveOp? {
      ReserveCarries(cfg, t0, at, t, op);
    } else if op.GrantOp? {
      GrantCarries(cfg, t0, at, t, op);
    } else if op.RollbackOp? {
      RollbackCarries(cfg, t0, at, t, op);
    } else {
      EditingCarries(cfg, t0, at, t, op);
    }
  }

  lemma ReserveCarries(cfg: Config, t0: Turn, at: At, t: Turn, op: Op)
    requires Carries(t0, at, t) && May(cfg, t, op, at) && op.ReserveOp?
    ensures Carries(t0, at, Do(cfg, t, op, at))
  {
  }

  lemma GrantCarries(cfg: Config, t0: Turn, at: At, t: Turn, op: Op)
    requires Carries(t0, at, t) && May(cfg, t, op, at) && op.GrantOp?
    ensures Carries(t0, at, Do(cfg, t, op, at))
  {
  }

  lemma RollbackCarries(cfg: Config, t0: Turn, at: At, t: Turn, op: Op)
    requires Carries(t0, at, t) && May(cfg, t, op, at) && op.RollbackOp?
    ensures Carries(t0, at, Do(cfg, t, op, at))
  {
    WithoutIssueDrops(t.log.issues, op.ref);
  }

  // Editing a record moves no table.
  lemma EditingLeaves(cfg: Config, t: Turn, op: Op, at: At)
    requires May(cfg, t, op, at) && Editing(op) && !op.RemoveOp?
    ensures var r := Do(cfg, t, op, at);
            && Closed(r) && r.active == t.active && r.creds.Keys == t.creds.Keys && r.log.open == t.log.open
            && r.log.issues == t.log.issues && r.log.booted == t.log.booted
  {
  }

  lemma EditingCarries(cfg: Config, t0: Turn, at: At, t: Turn, op: Op)
    requires Carries(t0, at, t) && May(cfg, t, op, at) && Editing(op)
    ensures Carries(t0, at, Do(cfg, t, op, at))
  {
    if !op.RemoveOp? {
      EditingLeaves(cfg, t, op, at);
    }
  }

  lemma OpsCarry(cfg: Config, t0: Turn, at: At)
    ensures Preserved(cfg, at, t => Carries(t0, at, t))
  {
    forall t, op | Carries(t0, at, t) && May(cfg, t, op, at) ensures Carries(t0, at, Do(cfg, t, op, at)) {
      OpCarries(cfg, t0, at, t, op);
    }
  }

  lemma StepCarries(cfg: Config, s: Sys, e: Event, env: Env)
    requires WellFormed(s)
    ensures Carries(s.t, AtStep(cfg, s, e, env), Step(cfg, s, e, env).t)
  {
    var at := AtStep(cfg, s, e, env);
    OpsCarry(cfg, s.t, at);
    StepKeeps(cfg, s, e, env, t => Carries(s.t, at, t));
  }

  // ----- tasks -----

  predicate Holds(task: Task, cid: string) {
    (task.Issuing? || task.Returning?) && task.cid == cid
  }

  predicate Holding(task: Task) {
    task.Issuing? || task.Returning?
  }

  /** The in-flight table and the tasks agree, so an identifier has at most one issuance in flight. */
  ghost predicate Exclusive(s: Sys) {
    && (forall id :: id in s.tasks && Holding(s.tasks[id]) ==>
          s.tasks[id].cid in s.t.inFlight && s.t.inFlight[s.tasks[id].cid] == id)
    && (forall cid :: cid in s.t.inFlight ==>
          s.t.inFlight[cid] in s.tasks && Holds(s.tasks[s.t.inFlight[cid]], cid))
  }

  /** Task `id` moves on to what its step left it, and a kill-switch sweep may start beside it. */
  ghost predicate Moves(s: Sys, r: Sys, id: nat)
    requires id in s.tasks
  {
    && r.t.inFlight == s.t.inFlight
    && (var tasks := if id in r.tasks then s.tasks[id := r.tasks[id]] else s.tasks - {id};
        || (r.nextId == s.nextId && r.tasks == tasks)
        || (r.nextId == s.nextId + 1 && exists cids :: r.tasks == tasks[s.nextId := SweepFlushing(cids)]))
    && (id in r.tasks ==> r.tasks[id] == s.tasks[id] || (!r.tasks[id].Issuing? && Captured(r, id, r.tasks[id])))
    && (Holding(s.tasks[id]) ==> id in r.tasks && Holds(r.tasks[id], s.tasks[id].cid))
    && (id in r.tasks && Holding(r.tasks[id]) ==> Holds(s.tasks[id], r.tasks[id].cid))
  }

  /** What a task's own step needs to know of the others: nothing. */
  ghost predicate Current(s: Sys, id: nat) {
    Closed(s.t) && id in s.tasks && id < s.nextId && Captured(s, id, s.tasks[id])
  }

  lemma GoMoves(s: Sys, r: Sys, id: nat, task: Task)
    requires id in s.tasks && r.tasks == s.tasks[id := task] && r.nextId == s.nextId && r.t.inFlight == s.t.inFlight
    requires !Holding(s.tasks[id]) && !Holding(task) && Captured(r, id, task)
    ensures Moves(s, r, id)
  {
  }

  lemma EndMoves(s: Sys, r: Sys, id: nat)
    requires id in s.tasks && r.tasks == s.tasks - {id} && r.nextId == s.nextId && r.t.inFlight == s.t.inFlight
    requires !Holding(s.tasks[id])
    ensures Moves(s, r, id)
  {
  }

  lemma SweepStarts(s: Sys, r: Sys, id: nat, cids: seq<string>)
    requires id in s.tasks && id < s.nextId && !Holding(s.tasks[id]) && r.nextId == s.nextId + 1
    requires r.tasks == (s.tasks - {id})[s.nextId := SweepFlushing(cids)] && r.t.inFlight == s.t.inFlight
    ensures Moves(s, r, id)
  {
  }

  /** The last step of a poll: it ends and the kill switch is evaluated. */
  lemma SwitchMoves(cfg: Config, s: Sys, ended: Sys, id: nat, cids: seq<string>, now: int)
    requires id in s.tasks && id < s.nextId && Closed(ended.t) && !Holding(s.tasks[id])
    requires ended.tasks == s.tasks - {id} && ended.nextId == s.nextId && ended.t.inFlight == s.t.inFlight
    ensures Moves(s, KillSwitch(cfg, ended, cids, now), id)
  {
    var r := KillSwitch(cfg, ended, cids, now);
    MarkAllAddsNothing(Trip(cfg, ended.t, now), cids, now);
    assert r.t.inFlight == s.t.inFlight;
    if Trips(cfg, ended.t.usage) && cfg.revokeAllOnKill {
      SweepStarts(s, r, id, cids);
    } else {
      EndMoves(s, r, id);
    }
  }

  lemma IssuedMoves(cfg: Config, s: Sys, id: nat, ok: bool)
    requires Current(s, id) && s.tasks[id].Issuing?
    ensures Moves(s, OnIssued(cfg, s, id, s.tasks[id], ok), id)
  {
  }

  lemma RetryNextMoves(s: Sys, id: nat, now: int)
    requires Current(s, id) && s.tasks[id].RetryNext?
    ensures Moves(s, OnRetryNext(s, id, s.tasks[id], now), id)
  {
    var task := s.tasks[id];
    var r := OnRetryNext(s, id, task, now);
    if task.queue == [] {
      EndMoves(s, r, id);
    } else {
      SettleAddsNothing(s.t, task.queue[0].1, 0, now);
      assert r.tasks[id].queue == task.queue[1..];
      GoMoves(s, r, id, r.tasks[id]);
    }
  }

  lemma RetryRevokedMoves(s: Sys, id: nat, ok: bool, now: int)
    requires Current(s, id) && s.tasks[id].RetryRevoking?
    ensures Moves(s, OnRetryRevoked(s, id, s.tasks[id], ok, now), id)
  {
    SettleAddsNothing(s.t, s.tasks[id].ref, 0, now);
  }

  lemma PollMoves(s: Sys, id: nat, reply: Reply)
    requires Current(s, id) && s.tasks[id].Polling? && Awaits(s.tasks[id], reply)
    ensures Moves(s, OnPolled(s, id, s.tasks[id].generation, reply), id)
  {
    var r := OnPolled(s, id, s.tasks[id].generation, reply);
    if s.tasks[id].generation != s.abuseGeneration || reply.QueryFailed? {
      EndMoves(s, r, id);
    } else {
      GoMoves(s, r, id, ApplyingRows(reply.rows));
    }
  }

  lemma RowMoves(cfg: Config, s: Sys, id: nat, rows: seq<(string, nat)>, env: Env)
    requires Current(s, id) && s.tasks[id] == ApplyingRows(rows)
    ensures Moves(s, OnRow(cfg, s, id, rows, env), id)
  {
    var r := OnRow(cfg, s, id, rows, env);
    if rows == [] {
      SwitchMoves(cfg, s, End(s, id).(abuseBusy := false), id, env.sweepCids, env.now);
    } else if rows[0].0 !in s.t.active {
      GoMoves(s, r, id, ApplyingRows(rows[1..]));
    } else {
      AppliedRowMoves(cfg, s, id, rows, env);
    }
  }

  lemma AppliedRowMoves(cfg: Config, s: Sys, id: nat, rows: seq<(string, nat)>, env: Env)
    requires Current(s, id) && s.tasks[id] == ApplyingRows(rows) && rows != [] && rows[0].0 in s.t.active
    ensures Moves(s, OnRow(cfg, s, id, rows, env), id)
  {
    var r := OnRow(cfg, s, id, rows, env);
    var (cid, actual) := rows[0];
    var ref := s.t.active[cid];
    var t := Correct(s.t, cid, actual);
    assert t.inFlight == s.t.inFlight && ref in t.creds;
    if actual >= cfg.maxBytesPerSession {
      CondemnAddsNothing(cfg, t, cid, ref, actual, env.now);
      GoMoves(s, r, id, AbuseFlushing(cid, ref, rows[1..]));
    } else {
      GoMoves(s, r, id, ApplyingRows(rows[1..]));
    }
  }

  lemma CondemnAddsNothing(cfg: Config, t: Turn, cid: string, ref: Ref, actual: nat, now: int)
    requires ref in t.creds
    ensures SameRecords(t, Condemn(cfg, t, cid, ref, actual, now))
  {
    SettleAddsNothing(t, ref, actual, now);
  }

  lemma TotalMoves(cfg: Config, s: Sys, id: nat, reply: Reply, env: Env)
    requires Current(s, id) && s.tasks[id].Totalling?
    ensures Moves(s, OnTotal(cfg, s, id, s.tasks[id], reply, env), id)
  {
    var task := s.tasks[id];
    if task.generation == s.globalGeneration && reply.MonthTotal? {
      ExpireAddsNothing(s.t, env.cids, env.now);
      var expired := Expire(s.t, env.cids, env.now);
      var t := AppliedTotal(cfg, expired, reply.total, reply.truncated, ActivePessimistic(expired), env.now);
      var ended := WithTurn(End(s, id), t).(globalBusy := s.globalBusy && !task.timed,
        ready := s.ready || !reply.truncated);
      SwitchMoves(cfg, s, ended, id, env.sweepCids, env.now);
    }
  }

  lemma SweepNextMoves(s: Sys, id: nat)
    requires Current(s, id) && s.tasks[id].SweepNext?
    ensures Moves(s, OnSweepNext(s, id, s.tasks[id].cids), id)
  {
    var cids := s.tasks[id].cids;
    var r := OnSweepNext(s, id, cids);
    if cids == [] {
      GoMoves(s, r, id, SweepReflushing);
    } else if cids[0] !in s.t.active {
      GoMoves(s, r, id, SweepNext(cids[1..]));
    } else {
      GoMoves(s, r, id, SweepRevoking(cids[0], s.t.active[cids[0]], cids[1..]));
    }
  }

  lemma SweepRevokedMoves(s: Sys, id: nat, ok: bool, now: int)
    requires Current(s, id) && s.tasks[id].SweepRevoking?
    ensures Moves(s, OnSweepRevoked(s, id, s.tasks[id], ok, now), id)
  {
    GoMoves(s, OnSweepRevoked(s, id, s.tasks[id], ok, now), id, SweepNext(s.tasks[id].cids));
  }

  lemma AbuseMoves(s: Sys, id: nat, ok: bool, now: int)
    requires Current(s, id)
    ensures s.tasks[id].AbuseFlushing? ==> Moves(s, OnAbuseFlushed(s, id, s.tasks[id], ok), id)
    ensures s.tasks[id].AbuseRevoking? ==> Moves(s, OnAbuseRevoked(s, id, s.tasks[id], ok, now), id)
  {
  }

  lemma ResumeMoves(cfg: Config, s: Sys, id: nat, reply: Reply, env: Env)
    requires WellFormed(s) && id in s.tasks && Awaits(s.tasks[id], reply) && !s.tasks[id].Returning?
    ensures Moves(s, OnResume(cfg, s, id, reply, env), id)
  {
    assert Current(s, id);
    match s.tasks[id]
    case Issuing(_, _, _) => IssuedMoves(cfg, s, id, reply.ProviderOk?);
    case RetryNext(_, _) => RetryNextMoves(s, id, env.now);
    case RetryRevoking(_, _, _, _) => RetryRevokedMoves(s, id, reply.ok, env.now);
    case Polling(generation) => PollMoves(s, id, reply);
    case ApplyingRows(rows) => RowMoves(cfg, s, id, rows, env);
    case AbuseFlushing(_, _, _) => AbuseMoves(s, id, reply.ok, env.now);
    case AbuseRevoking(_, _, _) => AbuseMoves(s, id, reply.ok, env.now);
    case Totalling(_, _) => TotalMoves(cfg, s, id, reply, env);
    case SweepNext(_) => SweepNextMoves(s, id);
    case SweepRevoking(_, _, _) => SweepRevokedMoves(s, id, reply.ok, env.now);
    case _ =>
  }

  // ----- requests -----

  /** A request starts at most one issuance, of an identifier that had none in flight. */
  ghost predicate Opens(s: Sys, r: Sys, cid: string) {
    || (r.t.inFlight == s.t.inFlight && r.nextId == s.nextId && r.tasks == s.tasks)
    || (&& cid !in s.t.inFlight && r.t.inFlight == s.t.inFlight[cid := s.nextId] && s.nextId in r.tasks
        && Holds(r.tasks[s.nextId], cid)
        && (r.tasks[s.nextId].Issuing? ==> Captured(r, s.nextId, r.tasks[s.nextId]))
        && (var tasks := s.tasks[s.nextId := r.tasks[s.nextId]];
            || (r.nextId == s.nextId + 1 && r.tasks == tasks)
            || (r.nextId == s.nextId + 2 && exists cids :: r.tasks == tasks[s.nextId + 1 := SweepFlushing(cids)])))
  }

  lemma ReturnsAtOnce(s: Sys, r: Sys, cid: string)
    requires cid !in s.t.inFlight && r.t.inFlight == s.t.inFlight[cid := s.nextId] && r.nextId == s.nextId + 1
    requires r.tasks == s.tasks[s.nextId := Returning(cid)]
    ensures Opens(s, r, cid)
  {
  }

  /** Evaluating the switch starts at most the sweep, and keeps every record and reservation. */
  lemma KillSwitchShape(cfg: Config, s: Sys, cids: seq<string>, now: int)
    requires Closed(s.t)
    ensures var r := KillSwitch(cfg, s, cids, now);
            && r.t.inFlight == s.t.inFlight && r.t.creds.Keys == s.t.creds.Keys && r.t.log.open == s.t.log.open
            && (|| (r.nextId == s.nextId && r.tasks == s.tasks)
                || (r.nextId == s.nextId + 1 && r.tasks == s.tasks[s.nextId := SweepFlushing(cids)]))
  {
    MarkAllAddsNothing(Trip(cfg, s.t, now), cids, now);
  }

  lemma ReservedOpens(cfg: Config, s: Sys, issuing: Sys, cid: string, expiresAt: int, cids: seq<string>, now: int)
    requires cid !in s.t.inFlight && issuing.t.inFlight == s.t.inFlight[cid := s.nextId]
    requires issuing.nextId == s.nextId + 1
    requires issuing.tasks == s.tasks[s.nextId := Issuing(cid, s.nextId, expiresAt)]
    requires Closed(issuing.t) && s.nextId in issuing.t.creds && s.nextId in issuing.t.log.open
    ensures Opens(s, KillSwitch(cfg, issuing, cids, now), cid)
  {
    KillSwitchShape(cfg, issuing, cids, now);
    var r := KillSwitch(cfg, issuing, cids, now);
    IssuingOpens(s, issuing, r, cid, expiresAt, cids);
  }

  lemma IssuingOpens(s: Sys, issuing: Sys, r: Sys, cid: string, expiresAt: int, cids: seq<string>)
    requires cid !in s.t.inFlight && r.t.inFlight == s.t.inFlight[cid := s.nextId] && issuing.nextId == s.nextId + 1
    requires issuing.tasks == s.tasks[s.nextId := Issuing(cid, s.nextId, expiresAt)]
    requires s.nextId in r.t.creds && s.nextId in r.t.log.open
    requires
      || (r.nextId == issuing.nextId && r.tasks == issuing.tasks)
      || (r.nextId == issuing.nextId + 1 && r.tasks == issuing.tasks[issuing.nextId := SweepFlushing(cids)])
    ensures Opens(s, r, cid)
  {
  }

  /** A fresh request starts a task for its identifier, and after a reservation evaluates the kill switch. */
  lemma StartShape(cfg: Config, x: Sys, cid: string, ip: string, principal: string, env: Env)
      returns (t: Turn, task: Task)
    requires Closed(x.t)
    ensures Closed(t) && t.inFlight == x.t.inFlight[cid := x.nextId]
    ensures task == Returning(cid)
      || (task == Issuing(cid, x.nextId, env.now + cfg.ttlMs) && x.nextId in t.creds && x.nextId in t.log.open)
    ensures StartFresh(cfg, x, cid, ip, principal, env)
      == if task.Issuing? then KillSwitch(cfg, Spawn(WithTurn(x, t), task), env.sweepCids, env.now)
        else Spawn(WithTurn(x, t), task)
  {
    var id := x.nextId;
    var begun := x.t.(cache := x.t.cache - {cid}, inFlight := x.t.inFlight[cid := id]);
    if WithinIpCaps(cfg, x.t, ip, env.now) {
      t, task := Reserve(cfg, begun, cid, ip, principal, env.now, id), Issuing(cid, id, env.now + cfg.ttlMs);
      ReserveTables(cfg, begun, cid, ip, principal, env.now, id);
      ReservedShape(cfg, x, cid, ip, principal, env);
    } else {
      t, task := begun, Returning(cid);
    }
  }

  lemma ReservedShape(cfg: Config, x: Sys, cid: string, ip: string, principal: string, env: Env)
    requires Closed(x.t) && WithinIpCaps(cfg, x.t, ip, env.now)
    ensures var begun := x.t.(cache := x.t.cache - {cid}, inFlight := x.t.inFlight[cid := x.nextId]);
            var reserved := Reserve(cfg, begun, cid, ip, principal, env.now, x.nextId);
            && Closed(reserved)
            && StartFresh(cfg, x, cid, ip, principal, env)
                 == KillSwitch(cfg, Spawn(WithTurn(x, reserved), Issuing(cid, x.nextId, env.now + cfg.ttlMs)),
                   env.sweepCids, env.now)
  {
    ReserveTables(cfg, x.t.(cache := x.t.cache - {cid}, inFlight := x.t.inFlight[cid := x.nextId]), cid, ip, principal,
      env.now, x.nextId);
  }

  lemma StartOpens(cfg: Config, s: Sys, cid: string, ip: string, principal: string, env: Env)
    requires Closed(s.t) && cid !in s.t.inFlight
    ensures Opens(s, StartFresh(cfg, s, cid, ip, principal, env), cid)
  {
    var t, task := StartShape(cfg, s, cid, ip, principal, env);
    var y := Spawn(WithTurn(s, t), task);
    if task.Issuing? {
      ReservedOpens(cfg, s, y, cid, env.now + cfg.ttlMs, env.sweepCids, env.now);
    } else {
      ReturnsAtOnce(s, y, cid);
    }
  }

  lemma ReserveTables(cfg: Config, t: Turn, cid: string, ip: string, principal: string, now: int, ref: Ref)
    requires Closed(t)
    ensures var r := Reserve(cfg, t, cid, ip, principal, now, ref);
            Closed(r) && ref in r.creds && ref in r.log.open && r.inFlight == t.inFlight
  {
  }

  lemma SweptOpens(cfg: Config, s: Sys, swept: Sys, cid: string, ip: string, principal: string, env: Env)
    requires Closed(swept.t) && swept.t.inFlight == s.t.inFlight && swept.nextId == s.nextId && swept.tasks == s.tasks
    requires cid !in s.t.inFlight
    ensures Opens(s, StartFresh(cfg, swept, cid, ip, principal, env), cid)
  {
    StartOpens(cfg, swept, cid, ip, principal, env);
    OpensFromSwept(s, swept, StartFresh(cfg, swept, cid, ip, principal, env), cid);
  }

  lemma RequestOpens(cfg: Config, s: Sys, cid: string, ip: string, principal: string, env: Env)
    requires Closed(s.t)
    ensures Opens(s, OnRequest(cfg, s, cid, ip, principal, env), cid)
  {
    if s.ready {
      HousekeepAddsNothing(s.t, env.month, env.cids, env.now);
      var swept := WithTurn(s, Housekeep(s.t, env.month, env.cids, env.now));
      var who := RequestPrincipal(cid, principal);
      if GateOf(cfg, swept.t, cid, ip, who, env.now).Fresh? {
        SweptOpens(cfg, s, swept, cid, ip, who, env);
      }
    }
  }

  lemma OpensFromSwept(s: Sys, swept: Sys, r: Sys, cid: string)
    requires Opens(swept, r, cid) && swept.t.inFlight == s.t.inFlight
    requires swept.nextId == s.nextId && swept.tasks == s.tasks
    ensures Opens(s, r, cid)
  {
  }

  // ----- every run -----

  ghost predicate Healthy(s: Sys) {
    WellFormed(s) && Exclusive(s)
  }

  lemma CaptureSurvives(s: Sys, r: Sys, at: At, i: nat)
    requires Carries(s.t, at, r.t) && i in s.tasks && Captured(s, i, s.tasks[i]) && at.answered != i
    ensures Captured(r, i, s.tasks[i])
  {
  }

  lemma TablesBounded(s: Sys, r: Sys, at: At)
    requires WellFormed(s) && Carries(s.t, at, r.t) && s.nextId <= r.nextId && at.newRef < r.nextId
    ensures forall ref :: ref in r.t.creds ==> ref < r.nextId
    ensures forall k :: 0 <= k < |r.t.log.booted| ==> r.t.log.booted[k].ref < r.nextId
    ensures forall k :: 0 <= k < |r.t.log.issues| ==> r.t.log.issues[k].ref < r.nextId
  {
    forall i | i in r.t.log.issues ensures i.ref < r.nextId {
    }
  }

  ghost predicate TasksCaptured(r: Sys) {
    forall i :: i in r.tasks ==> i < r.nextId && Captured(r, i, r.tasks[i])
  }

  lemma MovesKeepsTasks(s: Sys, r: Sys, at: At, id: nat)
    requires WellFormed(s) && id in s.tasks && Moves(s, r, id) && Carries(s.t, at, r.t)
    requires at.answered < 0 || (at.answered == id && s.tasks[id].Issuing? && id in r.tasks && !r.tasks[id].Issuing?)
    ensures TasksCaptured(r)
  {
    forall i | i in r.tasks ensures i < r.nextId && Captured(r, i, r.tasks[i]) {
      if i in s.tasks && r.tasks[i] == s.tasks[i] {
        assert Captured(s, i, s.tasks[i]);
        CaptureSurvives(s, r, at, i);
      }
    }
  }

  lemma MovesKeepsExclusive(s: Sys, r: Sys, id: nat)
    requires WellFormed(s) && Exclusive(s) && id in s.tasks && Moves(s, r, id)
    ensures Exclusive(r)
  {
    forall i | i in r.tasks && Holding(r.tasks[i])
      ensures r.tasks[i].cid in r.t.inFlight && r.t.inFlight[r.tasks[i].cid] == i
    {
      assert i in s.tasks && Holds(s.tasks[i], r.tasks[i].cid);
    }
    forall cid | cid in r.t.inFlight
      ensures r.t.inFlight[cid] in r.tasks && Holds(r.tasks[r.t.inFlight[cid]], cid)
    {
      var i := s.t.inFlight[cid];
      assert i in s.tasks && Holds(s.tasks[i], cid) && i < s.nextId;
    }
  }

  lemma ReturningHealthy(s: Sys, r: Sys, at: At, id: nat)
    requires Healthy(s) && id in s.tasks && s.tasks[id].Returning? && r == OnReturning(s, id, s.tasks[id].cid)
    requires Carries(s.t, at, r.t) && at.answered < 0
    ensures TasksCaptured(r) && Exclusive(r)
  {
    forall i | i in r.tasks ensures i < r.nextId && Captured(r, i, r.tasks[i]) {
      assert Captured(s, i, s.tasks[i]);
      CaptureSurvives(s, r, at, i);
    }
  }

  lemma OpensKeepsTasks(s: Sys, r: Sys, at: At, cid: string)
    requires WellFormed(s) && Opens(s, r, cid) && Carries(s.t, at, r.t) && at.answered < 0
    ensures TasksCaptured(r)
  {
    forall i | i in r.tasks ensures i < r.nextId && Captured(r, i, r.tasks[i]) {
      if i in s.tasks && r.tasks[i] == s.tasks[i] {
        assert Captured(s, i, s.tasks[i]);
        CaptureSurvives(s, r, at, i);
      }
    }
  }

  lemma OpensKeepsExclusive(s: Sys, r: Sys, cid: string)
    requires WellFormed(s) && Exclusive(s) && Opens(s, r, cid)
    ensures Exclusive(r)
  {
    forall i | i in r.tasks && Holding(r.tasks[i])
      ensures r.tasks[i].cid in r.t.inFlight && r.t.inFlight[r.tasks[i].cid] == i
    {
      assert i in s.tasks ==> r.tasks[i] == s.tasks[i];
    }
    forall c | c in r.t.inFlight
      ensures r.t.inFlight[c] in r.tasks && Holds(r.tasks[r.t.inFlight[c]], c)
    {
      assert c in s.t.inFlight ==> s.t.inFlight[c] < s.nextId;
    }
  }

  /** A timer starts a task that holds nothing. */
  lemma StartHealthy(s: Sys, r: Sys, at: At, task: Task)
    requires Healthy(s) && Carries(s.t, at, r.t) && at.answered < 0 && r.t.inFlight == s.t.inFlight
    requires (r.tasks == s.tasks && r.nextId == s.nextId)
             || (r.tasks == s.tasks[s.nextId := task] && r.nextId == s.nextId + 1)
    requires !Holding(task) && Captured(r, s.nextId, task)
    ensures TasksCaptured(r) && Exclusive(r)
  {
    forall i | i in r.tasks ensures i < r.nextId && Captured(r, i, r.tasks[i]) {
      if i in s.tasks && r.tasks[i] == s.tasks[i] {
        assert Captured(s, i, s.tasks[i]);
        CaptureSurvives(s, r, at, i);
      }
    }
    forall cid | cid in r.t.inFlight
      ensures r.t.inFlight[cid] in r.tasks && Holds(r.tasks[r.t.inFlight[cid]], cid)
    {
      assert s.t.inFlight[cid] < s.nextId;
    }
  }

  lemma MovedHealthy(s: Sys, r: Sys, at: At, id: nat)
    requires Healthy(s) && id in s.tasks && Moves(s, r, id) && Carries(s.t, at, r.t) && at.newRef < 0
    requires at.answered < 0 || (at.answered == id && s.tasks[id].Issuing? && id in r.tasks && !r.tasks[id].Issuing?)
    ensures Healthy(r)
  {
    MovesKeepsTasks(s, r, at, id);
    MovesKeepsExclusive(s, r, id);
    TablesBounded(s, r, at);
  }

  lemma ReturnedHealthy(cfg: Config, s: Sys, id: nat, reply: Reply, env: Env)
    requires Healthy(s) && id in s.tasks && Awaits(s.tasks[id], reply) && s.tasks[id].Returning?
    ensures Healthy(OnResume(cfg, s, id, reply, env))
  {
    var at := AtStep(cfg, s, Resume(id, reply), env);
    var r := OnReturning(s, id, s.tasks[id].cid);
    StepCarries(cfg, s, Resume(id, reply), env);
    ReturningHealthy(s, r, at, id);
    TablesBounded(s, r, at);
  }

  /** A resumed task creates no credential, and answers only the reservation it was waiting for. */
  lemma ResumeCarries(cfg: Config, s: Sys, id: nat, reply: Reply, env: Env) returns (at: At)
    requires WellFormed(s) && id in s.tasks && Awaits(s.tasks[id], reply)
    ensures Carries(s.t, at, OnResume(cfg, s, id, reply, env).t)
    ensures at.newRef < 0 && at.answered == if s.tasks[id].Issuing? then id else -1
  {
    at := At(env.now, -1, if s.tasks[id].Issuing? then id else -1, false, IsCompleteTotal(s, Resume(id, reply)));
    OpsCarry(cfg, s.t, at);
    ResumeKeeps(cfg, s, id, reply, env, at, t => Carries(s.t, at, t));
  }

  lemma ResumeHealthy(cfg: Config, s: Sys, id: nat, reply: Reply, env: Env)
    requires Healthy(s) && id in s.tasks && Awaits(s.tasks[id], reply)
    ensures Healthy(OnResume(cfg, s, id, reply, env))
  {
    if s.tasks[id].Returning? {
      ReturnedHealthy(cfg, s, id, reply, env);
    } else {
      var at := ResumeCarries(cfg, s, id, reply, env);
      ResumeMoves(cfg, s, id, reply, env);
      if s.tasks[id].Issuing? {
        AnsweredEnds(cfg, s, id, reply, env);
      }
      MovedHealthy(s, OnResume(cfg, s, id, reply, env), at, id);
    }
  }

  lemma AnsweredEnds(cfg: Config, s: Sys, id: nat, reply: Reply, env: Env)
    requires WellFormed(s) && id in s.tasks && Awaits(s.tasks[id], reply) && s.tasks[id].Issuing?
    ensures OnResume(cfg, s, id, reply, env).tasks == s.tasks[id := Returning(s.tasks[id].cid)]
  {
  }

  lemma RequestHealthy(cfg: Config, s: Sys, e: Event, env: Env)
    requires Healthy(s) && e.Request?
    ensures Healthy(OnRequest(cfg, s, e.cid, e.ip, e.principal, env))
  {
    var at := AtStep(cfg, s, e, env);
    var r := OnRequest(cfg, s, e.cid, e.ip, e.principal, env);
    StepCarries(cfg, s, e, env);
    assert Carries(s.t, at, r.t);
    RequestOpens(cfg, s, e.cid, e.ip, e.principal, env);
    StartsSpawns(cfg, s, e, env);
    OpenedHealthy(s, r, at, e.cid);
  }

  lemma OpenedHealthy(s: Sys, r: Sys, at: At, cid: string)
    requires Healthy(s) && Opens(s, r, cid) && Carries(s.t, at, r.t) && at.answered < 0 && at.newRef < r.nextId
    ensures Healthy(r)
  {
    OpensKeepsTasks(s, r, at, cid);
    OpensKeepsExclusive(s, r, cid);
    TablesBounded(s, r, at);
  }

  lemma StartsSpawns(cfg: Config, s: Sys, e: Event, env: Env)
    requires WellFormed(s) && e.Request?
    ensures AtStep(cfg, s, e, env).newRef < OnRequest(cfg, s, e.cid, e.ip, e.principal, env).nextId
  {
  }

  lemma TimerHealthy(cfg: Config, s: Sys, e: Event, env: Env)
    requires Healthy(s) && Enabled(s, e) && !e.Request? && !e.Resume?
    ensures Healthy(Apply(cfg, s, e, env))
  {
    var at := AtStep(cfg, s, e, env);
    var r := Apply(cfg, s, e, env);
    StepCarries(cfg, s, e, env);
    if e.StartRetry? {
      StartHealthy(s, r, at, RetryNext(env.now, e.pending));
    } else if e.StartAbusePoll? {
      StartHealthy(s, r, at, Polling(s.abuseGeneration + 1));
    } else {
      StartHealthy(s, r, at, Totalling(s.globalGeneration + 1, e.StartGlobalPoll?));
    }
    TablesBounded(s, r, at);
  }

  lemma StepHealthy(cfg: Config, s: Sys, e: Event, env: Env)
    requires Healthy(s)
    ensures Healthy(Step(cfg, s, e, env))
  {
    if Enabled(s, e) {
      match e
      case Request(_, _, _) => RequestHealthy(cfg, s, e, env);
      case Resume(id, reply) => ResumeHealthy(cfg, s, id, reply, env);
      case _ => TimerHealthy(cfg, s, e, env);
    }
  }

  predicate InFlight(s: Sys, id: nat, cid: string) {
    id in s.tasks && Holds(s.tasks[id], cid)
  }

  /** Every run is healthy, so no identifier ever has two issuances in flight. */
  lemma {:induction false} RunHealthy(cfg: Config, t: Trace)
    requires Possible(cfg, t)
    ensures Healthy(Run(cfg, t))
    ensures forall i, j, cid :: InFlight(Run(cfg, t), i, cid) && InFlight(Run(cfg, t), j, cid) ==> i == j
  {
    if t.After? {
      RunHealthy(cfg, t.before);
      StepHealthy(cfg, Run(cfg, t.before), t.event, t.env);
    }
  }

  /** What every operation keeps at every moment, and holds at boot, holds after every run. */
  lemma {:induction false} RunKeeps(cfg: Config, t: Trace, keeps: Turn -> bool)
    requires Possible(cfg, t)
    requires forall at, x, op {:trigger Do(cfg, x, op, at)} ::
               keeps(x) && May(cfg, x, op, at) ==> keeps(Do(cfg, x, op, at))
    requires forall s, at :: Boot(s, at) ==> keeps(s.t)
    ensures keeps(Run(cfg, t).t)
  {
    if t.After? {
      RunHealthy(cfg, t.before);
      RunKeeps(cfg, t.before, keeps);
      StepKeeps(cfg, Run(cfg, t.before), t.event, t.env, keeps);
    }
  }

  // ----- there are runs -----

  function NewTurn(month: int): Turn {
    Turn(FreshMonth(month), map[], map[], [], map[], [], map[], map[], Log([], [], {}, 0, 0, 0, 0, 0, [], map[]))
  }

  /** A first start, with no file to load, is a boot. */
  lemma FirstStartBoots(month: int, at: int)
    requires at >= HOUR_MS
    ensures Boot(Sys(NewTurn(month), true, map[], 0, 0, 0, false, false, false), at)
  {
    assert NewTurn(month).history == IssuesFrom(NewTurn(month).history, 0);
  }
}
